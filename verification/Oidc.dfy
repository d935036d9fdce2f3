/** The identity provider's stores and handlers, as objects that run the grant machine. A handler is
    two methods where other handlers can come between its store operations. */
module Oidc {
  import opened OidcSpec
  import P = GrantProtocol
  import GrantResults

  // ---------- The stores ----------

  class CodeStore {
    var records: map<string, CodeRecord>
    const ttl: int

    constructor (ttl: int)
      ensures records == map[] && this.ttl == ttl
    {
      records := map[];
      this.ttl := ttl;
    }

    /** `code` is the random string that goes with the record. */
    method Issue(rec: CodeRecord, code: string, now: int)
      modifies this
      ensures records.Keys == old(records).Keys + {code}
      ensures forall other :: other in old(records) && other != code ==> records[other] == old(records)[other]
      ensures records[code] == rec.(expiresAt := now + ttl)
    {
      var stamped := rec.(expiresAt := now + ttl);
      records := records[code := stamped];
    }

    method Consume(code: string, expectedRedirectURI: string, now: int) returns (outcome: CodeOutcome)
      modifies this
      ensures (records, outcome) == ConsumeCode(old(records), code, expectedRedirectURI, now)
    {
      if code !in records {
        return CodeNotFound;
      }
      var rec := records[code];
      if now > rec.expiresAt {
        records := records - {code};
        return CodeExpired;
      }
      if rec.redirectURI != expectedRedirectURI {
        return CodeRedirectMismatch;
      }
      records := records - {code};
      return CodeOk(rec);
    }
  }

  class RefreshStore {
    var records: map<string, RefreshRecord>

    constructor ()
      ensures records == map[]
    {
      records := map[];
    }
  }

  // ---------- Checks without state ----------

  /** Walks the words of a scope. */
  method ScopeContainsOfflineAccess(scope: string) returns (found: bool)
    ensures found <==> Stands(scope, OFFLINE_ACCESS)
  {
    OfflineExactly(scope);
    var words := Words(scope);
    for k := 0 to |words|
      invariant OFFLINE_ACCESS !in words[..k]
    {
      if words[k] == OFFLINE_ACCESS {
        return true;
      }
    }
    assert words[..|words|] == words;
    return false;
  }

  /** Looks at a verifier byte length first, then at each character, then at its image. */
  method ValidatePkceVerifier(c: Config, verifier: string, challenge: string) returns (r: PkceResult)
    ensures r == ValidatePkce(c, verifier, challenge)
    ensures r == PkceOk <==> 43 <= |verifier| <= 128 && AllUnreserved(verifier) && c.s256(verifier) == challenge
  {
    PkceExactly(c, verifier, challenge);
    if verifier == "" {
      return PkceMissing;
    }
    var n := ByteLength(verifier);
    if n < 43 || n > 128 {
      return PkceLength;
    }
    for k := 0 to |verifier|
      invariant forall i :: 0 <= i < k ==> Unreserved(verifier[i])
    {
      if !Unreserved(verifier[k]) {
        return PkceBadCharacter;
      }
    }
    if c.s256(verifier) != challenge {
      return PkceMismatch;
    }
    return PkceOk;
  }

  // ---------- Replies ----------

  datatype Reply =
    | Error(status: nat, error: string, description: string)
    | Redirect(uri: string, code: Option<string>, error: string, state: string)
    | Tokens(id: Option<Token>, access: Option<Token>, refresh: Option<Token>, scope: Option<string>, expiresIn: int)
    | Proceed   // no reply yet: the handler goes on

  const INTERNAL_ERROR := Error(500, "internal_error", "")

  function ExpiresIn(c: Config): (s: int)
    ensures s == 1 <==> c.tokenTTL < 2 * SECOND
    ensures c.tokenTTL >= SECOND ==> s * SECOND <= c.tokenTTL < (s + 1) * SECOND
    ensures s >= 1
  {
    if c.tokenTTL < SECOND then 1 else c.tokenTTL / SECOND
  }

  function CodeError(o: CodeOutcome): Reply
    requires !o.CodeOk?
  {
    Error(400, "invalid_grant",
          if o.CodeNotFound? then "code not_found"
          else if o.CodeExpired? then "code expired"
          else "code redirect_uri_mismatch")
  }

  function PkceError(r: PkceResult): Reply
    requires r != PkceOk
  {
    match r
    case PkceMissing => Error(400, "invalid_request", "code_verifier is required")
    case PkceLength => Error(400, "invalid_request", "code_verifier length out of range (43-128)")
    case PkceBadCharacter => Error(400, "invalid_request", "code_verifier contains invalid characters")
    case PkceMismatch => Error(400, "invalid_grant", "code_verifier mismatch")
  }

  function RefreshError(o: RefreshOutcome): Reply
    requires !o.RefreshOk?
  {
    Error(400, "invalid_grant",
          match o
          case InvalidSignature => "refresh_token invalid_signature"
          case WrongAudience => "refresh_token wrong_audience"
          case MissingJti => "refresh_token missing_jti"
          case RefreshNotFound => "refresh_token not_found"
          case RefreshExpired => "refresh_token expired")
  }

  predicate KnownGrantType(grantType: string) {
    grantType == "authorization_code" || grantType == "client_credentials" || grantType == "refresh_token"
  }

  function AuthError(r: AuthResult): (e: Reply)
    requires r != AuthOk
    ensures e.Error? && (e.status == 400 || e.status == 401)
  {
    match r
    case AuthBoth => Error(400, "invalid_request", "both Basic and body client authentication provided")
    case AuthNone => Error(401, "invalid_client", "client authentication required")
    case AuthWrong => Error(401, "invalid_client", "invalid client credentials")
  }

  /** What the token endpoint says before it looks at a grant. */
  function Admission(c: Config, grantType: string, creds: Credentials): (r: Reply)
    ensures r == Proceed <==> KnownGrantType(grantType) && Authenticate(c, creds) == AuthOk
    ensures r == Proceed
       <==> && (grantType == "authorization_code" || grantType == "client_credentials" || grantType == "refresh_token")
            && (|| (creds.basic.Some? && creds.basic.value.0 == c.clientID && creds.basic.value.1 == c.clientSecret
                    && creds.bodyID == "" && creds.bodySecret == "")
                || (creds.basic.None? && creds.bodyID == c.clientID && creds.bodySecret == c.clientSecret
                    && !(creds.bodyID == "" && creds.bodySecret == "")))
    ensures r != Proceed ==> r.Error? && (r.status == 400 || r.status == 401)
  {
    if grantType == "" then
      Error(400, "invalid_request", "grant_type is required")
    else if !KnownGrantType(grantType) then
      Error(400, "unsupported_grant_type",
            "grant_type must be authorization_code, client_credentials, or refresh_token")
    else if Authenticate(c, creds) != AuthOk then
      AuthError(Authenticate(c, creds))
    else
      Proceed
  }

  /** What the client is told of a failure: invalid_request for a verifier that is missing or malformed,
      invalid_grant for everything else about the grant. */
  lemma ErrorsExactly(o: CodeOutcome, p: PkceResult, f: RefreshOutcome)
    ensures !o.CodeOk? ==>
              && CodeError(o).Error? && CodeError(o).status == 400 && CodeError(o).error == "invalid_grant"
              && (CodeError(o).description == "code not_found" <==> o == CodeNotFound)
              && (CodeError(o).description == "code expired" <==> o == CodeExpired)
              && (CodeError(o).description == "code redirect_uri_mismatch" <==> o == CodeRedirectMismatch)
    ensures p != PkceOk ==>
              && PkceError(p).Error? && PkceError(p).status == 400
              && (PkceError(p).error == "invalid_grant" <==> p == PkceMismatch)
              && (PkceError(p).error == "invalid_request" <==> p != PkceMismatch)
    ensures !f.RefreshOk? ==>
              && RefreshError(f).Error? && RefreshError(f).status == 400 && RefreshError(f).error == "invalid_grant"
              && (RefreshError(f).description == "refresh_token invalid_signature" <==> f == InvalidSignature)
              && (RefreshError(f).description == "refresh_token wrong_audience" <==> f == WrongAudience)
              && (RefreshError(f).description == "refresh_token missing_jti" <==> f == MissingJti)
              && (RefreshError(f).description == "refresh_token not_found" <==> f == RefreshNotFound)
              && (RefreshError(f).description == "refresh_token expired" <==> f == RefreshExpired)
  {}

  /** What a client is told that is not admitted: 400 for two ways of authenticating at once and for the
      grant type, 401 for none or a wrong one. */
  lemma RefusalsExactly(c: Config, grantType: string, creds: Credentials)
    ensures var r := Admission(c, grantType, creds);
            && (grantType == "" ==> r.Error? && r.status == 400 && r.error == "invalid_request")
            && (grantType != "" && !KnownGrantType(grantType) ==>
                  r.Error? && r.status == 400 && r.error == "unsupported_grant_type")
            && (KnownGrantType(grantType) && creds.basic.Some? && !(creds.bodyID == "" && creds.bodySecret == "") ==>
                  r.Error? && r.status == 400 && r.error == "invalid_request")
            && (r.Error? && r.status == 401 ==> r.error == "invalid_client")
            && (KnownGrantType(grantType) && r != Proceed
                && (creds.basic.None? || (creds.bodyID == "" && creds.bodySecret == "")) ==>
                  r.status == 401)
  {
    AuthenticatedExactly(c, creds);
    assert !KnownGrantType("");
    hide Authenticate, KnownGrantType;
  }

  // ---------- What an exchange mints ----------

  function MintOf(kind: P.Kind, grant: string, t: Option<Token>, now: int): seq<P.Mint> {
    if t.Some? then [P.Mint(kind, Some(grant), t.value, now)] else []
  }

  /** The mints a reply hands out, in the order a code exchange, or a refresh, signs them. */
  function HandedForCode(grant: string, r: Reply, now: int): seq<P.Mint>
    requires r.Tokens?
  {
    MintOf(P.IdToken, grant, r.id, now) + MintOf(P.AccessToken, grant, r.access, now)
    + MintOf(P.RefreshToken, grant, r.refresh, now)
  }

  function HandedForRefresh(grant: string, r: Reply, now: int): seq<P.Mint>
    requires r.Tokens?
  {
    MintOf(P.RefreshToken, grant, r.refresh, now) + MintOf(P.AccessToken, grant, r.access, now)
  }

  /** The failure strikes a token this exchange would sign. */
  predicate CodeFails(rec: CodeRecord, fault: P.Fault) {
    fault.IdFault? || (fault.AccessFault? && rec.audience != "") || (fault.RefreshFault? && OffersOffline(rec.scope))
  }

  lemma AuthorizeDoes(c: Config, s: P.State, q: AuthRequest, code: string)
    requires P.Enabled(s, P.Authorize(q, code)) && s.run.Some?
    ensures var t, run, d := P.Apply(c, s, P.Authorize(q, code)), s.run.value, Decide(c, q, s.now);
            t.run == Some(if d.Grant? then run.(codes := run.codes[code := d.rec]) else run)
  {
    hide Decide;
  }

  /** There is no challenge, or the verifier answers it. */
  predicate PkceMet(c: Config, rec: CodeRecord, verifier: string) {
    rec.codeChallenge == "" || ValidatePkce(c, verifier, rec.codeChallenge) == PkceOk
  }

  lemma PresentCodeDoes(c: Config, s: P.State, req: nat, creds: Credentials, code: string, uri: string,
      verifier: string)
    requires P.Enabled(s, P.PresentCode(req, creds, code, uri, verifier))
    ensures var t, run := P.Apply(c, s, P.PresentCode(req, creds, code, uri, verifier)), s.run.value;
            var (codes, outcome) := ConsumeCode(run.codes, code, uri, s.now);
            if Authenticate(c, creds) != AuthOk || code == "" || uri == "" then t == s
            else
              && t.run == Some(run.(codes := codes))
              && t.flights == if outcome.CodeOk? && PkceMet(c, outcome.rec, verifier)
                              then s.flights[req := P.CodeFlight(code, outcome.rec)] else s.flights
  {
    hide Authenticate, ValidatePkce;
  }

  lemma CodeTokensStored(c: Config, s: P.State, grant: string, rec: CodeRecord, a: string, r: string, fault: P.Fault)
    requires s.run.Some?
    ensures var t, run := P.CodeTokens(c, s, grant, rec, a, r, fault), s.run.value;
            t.run == Some(run.(refreshes := if OffersOffline(rec.scope) && !CodeFails(rec, fault)
                                            then run.refreshes[r := FromCode(c, rec, s.now)] else run.refreshes))
  {
    hide OffersOffline, IdClaims, AccessClaims, RefreshClaims;
  }

  /** A code exchange that no failure strikes mints an id token, and the two others as the grant asks. */
  lemma CodeTokensMinted(c: Config, s: P.State, grant: string, rec: CodeRecord, a: string, r: string, fault: P.Fault)
    requires s.run.Some? && !CodeFails(rec, fault)
    ensures var t, run := P.CodeTokens(c, s, grant, rec, a, r, fault), s.run.value;
            var id := Token(true, run.key, IdClaims(c, run.url, rec, s.now));
            var access := Token(true, run.key,
                                AccessClaims(c, run.url, rec.subject, rec.audience, rec.scope, a, s.now));
            var refresh := Token(true, run.key, RefreshClaims(run.url, FromCode(c, rec, s.now), r, s.now));
            var reply := Tokens(Some(id), if rec.audience != "" then Some(access) else None,
                                if OffersOffline(rec.scope) then Some(refresh) else None, Given(rec.scope),
                                    ExpiresIn(c));
            t.minted == s.minted + HandedForCode(grant, reply, s.now)
  {
    hide OffersOffline, IdClaims, AccessClaims, RefreshClaims, Given, ExpiresIn, FromCode;
    if rec.audience != "" {
      if OffersOffline(rec.scope) {
      }
    }
  }

  /** The same of the machine's step. */
  lemma FinishCodeDoes(c: Config, s: P.State, req: nat, a: string, r: string, fault: P.Fault)
    requires P.Enabled(s, P.FinishCode(req, a, r, fault))
    ensures var t, run, f := P.Apply(c, s, P.FinishCode(req, a, r, fault)), s.run.value, s.flights[req];
            var stored := FromCode(c, f.code, s.now);
            var id := Token(true, run.key, IdClaims(c, run.url, f.code, s.now));
            var access := Token(true, run.key,
                                AccessClaims(c, run.url, f.code.subject, f.code.audience, f.code.scope, a, s.now));
            var refresh := Token(true, run.key, RefreshClaims(run.url, stored, r, s.now));
            var offline := OffersOffline(f.code.scope);
            var reply := Tokens(Some(id), if f.code.audience != "" then Some(access) else None,
                                if offline then Some(refresh) else None, Given(f.code.scope), ExpiresIn(c));
            && t.run == Some(run.(refreshes := if offline && !CodeFails(f.code, fault) then run.refreshes[r := stored]
                                               else run.refreshes))
            && (!CodeFails(f.code, fault) ==> t.minted == s.minted + HandedForCode(f.grant, reply, s.now))
  {
    var f := s.flights[req];
    CodeTokensStored(c, P.Land(s, req), f.grant, f.code, a, r, fault);
    if !CodeFails(f.code, fault) {
      CodeTokensMinted(c, P.Land(s, req), f.grant, f.code, a, r, fault);
    }
    hide P.CodeTokens, OffersOffline, IdClaims, AccessClaims, RefreshClaims, FromCode, CodeFails, HandedForCode,
        ExpiresIn, Given;
  }

  lemma RefreshTokensAre(c: Config, s: P.State, grant: string, jti: string, rec: RefreshRecord, a: string, r: string,
      fault: P.Fault)
    requires s.run.Some?
    ensures var t, run := P.RefreshTokens(c, s, grant, jti, rec, a, r, fault), s.run.value;
            var stored := Rotated(c, rec, s.now);
            var access := Token(true, run.key,
                                AccessClaims(c, run.url, rec.subject, rec.audience, rec.scope, a, s.now));
            var refresh := Token(true, run.key, RefreshClaims(run.url, stored, r, s.now));
            var reply := Tokens(None, if rec.audience != "" then Some(access) else None, Some(refresh),
                                Given(rec.scope), ExpiresIn(c));
            && t.run == Some(run.(refreshes := if fault.RefreshFault? then run.refreshes
                                               else run.refreshes[r := stored]))
            && (!fault.RefreshFault? && !(fault.AccessFault? && rec.audience != "") ==>
                  t.minted == s.minted + HandedForRefresh(grant, reply, s.now))
  {
    hide AccessClaims, RefreshClaims, Given, ExpiresIn;
  }

  // ---------- The issuer ----------

  class Issuer {
    const config: Config
    var serving: bool
    var privKey: Option<nat>
    var baseURL: string
    var codeStore: CodeStore?
    var refreshStore: RefreshStore?

    /** The grant machine's state, of which the fields are the part that is not history. */
    ghost var state: P.State

    ghost predicate Valid()
      reads this, codeStore, refreshStore
    {
      && P.Reachable(config, state)
      && if serving then
           && codeStore != null && refreshStore != null && codeStore.ttl == config.codeTTL && privKey.Some?
           && state.run == Some(P.Run(privKey.value, baseURL, codeStore.records, refreshStore.records))
         else
           state.run == None
    }

    constructor (config: Config)
      ensures Valid() && this.config == config && state == P.INITIAL && !serving
    {
      this.config := config;
      serving, privKey, baseURL, codeStore, refreshStore := false, None, "", null, null;
      state := P.INITIAL;
      new;
      assert P.Runs(config, P.INITIAL, [], P.INITIAL);
    }

    /** The history of the machine moves one step on. */
    ghost method Step(step: P.Step)
      requires P.Reachable(config, state) && P.Enabled(state, step)
      modifies this`state
      ensures P.Reachable(config, state) && state == P.Apply(config, old(state), step)
    {
      P.ReachableOn(config, state, step);
      state := P.Apply(config, state, step);
    }

    /** `key` names the generated key pair; `bound` tells whether the listener came up. */
    method StartServer(key: nat, address: string, bound: bool) returns (ok: bool)
      requires Valid() && !serving && key == |state.urls|
      modifies this
      ensures Valid() && ok == bound && serving == bound
      ensures bound ==> fresh(codeStore) && fresh(refreshStore)
      ensures bound ==> codeStore.records == map[] && refreshStore.records == map[]
      ensures bound ==> privKey == Some(key) && baseURL == "http://" + address
      ensures !bound ==> privKey == None
      ensures state == if bound then P.Apply(config, old(state), P.StartServer("http://" + address)) else old(state)
    {
      privKey := Some(key);
      codeStore := new CodeStore(config.codeTTL);
      refreshStore := new RefreshStore();
      if !bound {
        privKey := None;
        return false;
      }
      baseURL := "http://" + address;
      serving := true;
      Step(P.StartServer(baseURL));
      return true;
    }

    method StopServer()
      requires Valid() && state.flights == map[]
      modifies this
      ensures Valid() && !serving
      ensures old(serving) ==> privKey == None && baseURL == "" && codeStore == null && refreshStore == null
      ensures state == P.Apply(config, old(state), P.StopServer)
    {
      if !serving {
        Step(P.StopServer);
        return;
      }
      serving, baseURL, privKey, codeStore, refreshStore := false, "", None, null, null;
      Step(P.StopServer);
    }

    /** A chain of early returns that ends by adding a record to the code store. */
    method HandleAuthorize(q: AuthRequest, code: string, now: int) returns (r: Reply)
      requires Valid() && serving && now == state.now && P.Enabled(state, P.Authorize(q, code))
      modifies this`state, codeStore
      ensures Valid() && state == P.Apply(config, old(state), P.Authorize(q, code))
      ensures match Decide(config, q, now)
              case BadRequest(e) => r.Error? && r.status == 400 && r.error == e
              case RedirectError(e) => r == Redirect(q.redirectURI, None, e, q.state)
              case Grant(rec) => r == Redirect(q.redirectURI, Some(code), "", q.state)
      ensures r.Redirect? ==> r.uri in config.redirectURIs
      ensures var stored, before := codeStore.records, old(codeStore.records);
              if r.Redirect? && r.code.Some? then
                && stored.Keys == before.Keys + {code}
                && (forall k :: k in before && k != code ==> stored[k] == before[k])
                && (q.sub != "" ==> stored[code].subject == q.sub)
                && (q.sub == "" && q.subject != "" ==> stored[code].subject == q.subject)
                && (q.sub == "" && q.subject == "" ==> stored[code].subject == config.defaultSubject)
                && stored[code].redirectURI == q.redirectURI && stored[code].scope == q.scope
                && stored[code].audience == q.audience && stored[code].nonce == q.nonce
                && stored[code].codeChallenge == q.codeChallenge
                && stored[code].authTime == now && stored[code].expiresAt == now + config.codeTTL
              else stored == before
    {
      hide P.Reachable, P.FreshJti, P.Apply, P.Enabled;
      AuthorizeDoes(config, state, q, code);
      DecidedExactly(config, q, now);
      ghost var subjectAsked := FirstGiven(q.sub, q.subject, config.defaultSubject);
      ghost var granted := CodeRecord(q.clientID, q.redirectURI, q.scope, q.state, q.nonce, q.audience,
          q.codeChallenge, subjectAsked, now + config.codeTTL, now);
      assert Decide(config, q, now).Grant? ==> Decide(config, q, now) == Grant(granted);
      hide Decide;
      Step(P.Authorize(q, code));
      if q.clientID == "" || q.clientID != config.clientID {
        return Error(400, "invalid_client", "client_id is missing or invalid");
      }
      if q.redirectURI == "" || q.redirectURI !in config.redirectURIs {
        return Error(400, "invalid_request", "redirect_uri is missing or unregistered");
      }
      if q.responseType == "" {
        return Redirect(q.redirectURI, None, "invalid_request", q.state);
      }
      if q.responseType != "code" {
        return Redirect(q.redirectURI, None, "unsupported_response_type", q.state);
      }
      if q.audience != "" && q.audience !in config.allowedAudiences {
        return Redirect(q.redirectURI, None, "invalid_request", q.state);
      }
      if q.codeChallenge != "" && q.codeChallengeMethod != "S256" {
        return Redirect(q.redirectURI, None, "invalid_request", q.state);
      }
      var subject := q.sub;
      if subject == "" {
        subject := q.subject;
      }
      if subject == "" {
        subject := config.defaultSubject;
      }
      var rec := CodeRecord(q.clientID, q.redirectURI, q.scope, q.state, q.nonce, q.audience, q.codeChallenge,
          subject, 0, now);
      assert granted == rec.(expiresAt := now + config.codeTTL);
      ghost var was := codeStore.records;
      codeStore.Issue(rec, code, now);
      assert codeStore.records == was[code := rec.(expiresAt := now + config.codeTTL)];
      return Redirect(q.redirectURI, Some(code), "", q.state);
    }

    /** The first half of a code exchange: admission, one store operation, the PKCE check. */
    method PresentCode(ghost req: nat, creds: Credentials, code: string, uri: string, verifier: string, now: int)
      returns (r: Reply, rec: Option<CodeRecord>)
      requires Valid() && serving && now == state.now
      requires P.Enabled(state, P.PresentCode(req, creds, code, uri, verifier))
      modifies this`state, codeStore
      ensures Valid() && state == P.Apply(config, old(state), P.PresentCode(req, creds, code, uri, verifier))
      ensures r == Proceed <==> req in state.flights
      ensures r == Proceed ==> rec.Some? && state.flights[req] == P.CodeFlight(code, rec.value)
      ensures var stored := old(codeStore.records);
              r == Proceed <==>
                && Admission(config, "authorization_code", creds) == Proceed && code != "" && uri != ""
                && code in stored && now <= stored[code].expiresAt && uri == stored[code].redirectURI
                && (stored[code].codeChallenge == "" ||
                    (43 <= |verifier| <= 128 && AllUnreserved(verifier)
                     && config.s256(verifier) == stored[code].codeChallenge))
      ensures Admission(config, "authorization_code", creds) != Proceed ==>
          r == Admission(config, "authorization_code", creds)
      ensures Admission(config, "authorization_code", creds) == Proceed && code != "" && uri != "" ==>
                var outcome := ConsumeCode(old(codeStore.records), code, uri, now).1;
                && (!outcome.CodeOk? ==> r == CodeError(outcome))
                && (outcome.CodeOk? && r != Proceed ==>
                      var pkce := ValidatePkce(config, verifier, outcome.rec.codeChallenge);
                      pkce != PkceOk && r == PkceError(pkce))
      ensures r == Proceed || (r.Error? && r.error in ["invalid_request", "invalid_client", "invalid_grant"])
    {
      hide P.Reachable, P.FreshJti;
      rec := None;
      PresentCodeDoes(config, state, req, creds, code, uri, verifier);
      CodeConsumedExactly(codeStore.records, code, uri, now);
      Step(P.PresentCode(req, creds, code, uri, verifier));
      hide P.Apply, ConsumeCode, Authenticate, ValidatePkce;
      var admission := Admission(config, "authorization_code", creds);
      if admission != Proceed {
        return admission, None;
      }
      if code == "" {
        return Error(400, "invalid_request", "code is required"), None;
      }
      if uri == "" {
        return Error(400, "invalid_request", "redirect_uri is required"), None;
      }
      var outcome := codeStore.Consume(code, uri, now);
      if !outcome.CodeOk? {
        return CodeError(outcome), None;
      }
      if outcome.rec.codeChallenge != "" {
        var pkce := ValidatePkceVerifier(config, verifier, outcome.rec.codeChallenge);
        if pkce != PkceOk {
          return PkceError(pkce), None;
        }
      }
      return Proceed, Some(outcome.rec);
    }

    method SignClaims(claims: Claims, fails: bool) returns (t: Option<Token>)
      ensures t == if privKey.None? || fails then None else Some(Token(true, privKey.value, claims))
    {
      if privKey.None? || fails {
        return None;
      }
      return Some(Token(true, privKey.value, claims));
    }

    /** Signs first, stores after. */
    method IssueRefreshToken(rec: RefreshRecord, jti: string, fails: bool, now: int) returns (t: Option<Token>)
      requires privKey.Some? && refreshStore != null
      modifies refreshStore
      ensures var stored := rec.(expires := now + config.refreshTTL);
              var signed := Token(true, privKey.value, RefreshClaims(baseURL, stored, jti, now));
              && t == (if fails then None else Some(signed))
              && refreshStore.records == if fails then old(refreshStore.records)
                                         else old(refreshStore.records)[jti := stored]
    {
      var stamped := rec.(expires := now + config.refreshTTL);
      t := SignClaims(RefreshClaims(baseURL, stamped, jti, now), fails);
      if t.None? {
        return;
      }
      refreshStore.records := refreshStore.records[jti := stamped];
    }

    /** The second half: an id token, an access token if an audience was asked for, a refresh token if
        offline access was; a failure on the way ends it, what was signed before is lost. */
    method FinishCode(ghost req: nat, rec: CodeRecord, accessJti: string, refreshJti: string, fault: P.Fault,
        now: int) returns (r: Reply)
      requires Valid() && serving && now == state.now
      requires P.Enabled(state, P.FinishCode(req, accessJti, refreshJti, fault))
      requires rec == state.flights[req].code
      modifies this`state, refreshStore
      ensures Valid() && state == P.Apply(config, old(state), P.FinishCode(req, accessJti, refreshJti, fault))
      ensures r == INTERNAL_ERROR <==> CodeFails(rec, fault)
      ensures r == INTERNAL_ERROR || r.Tokens?
      ensures r.Tokens? ==> state.minted == old(state.minted) + HandedForCode(old(state.flights[req].grant), r, now)
      ensures r.Tokens? ==> r.id.Some? && (r.access.Some? <==> rec.audience != "")
      ensures r.Tokens? ==> (r.refresh.Some? <==> OffersOffline(rec.scope))
      ensures r.Tokens? ==> r.scope == (if rec.scope == "" then None else Some(rec.scope))
      ensures r.Tokens? ==> r.expiresIn == ExpiresIn(config)
    {
      hide P.Reachable;
      FinishCodeDoes(config, state, req, accessJti, refreshJti, fault);
      Step(P.FinishCode(req, accessJti, refreshJti, fault));
      hide P.Apply, P.Enabled, OffersOffline, Stands, IdClaims, AccessClaims, RefreshClaims, HandedForCode, ExpiresIn,
          Given;
      var id := SignClaims(IdClaims(config, baseURL, rec, now), fault.IdFault?);
      if id.None? {
        return INTERNAL_ERROR;
      }
      var access: Option<Token> := None;
      if rec.audience != "" {
        var claims := AccessClaims(config, baseURL, rec.subject, rec.audience, rec.scope, accessJti, now);
        access := SignClaims(claims, fault.AccessFault?);
        if access.None? {
          return INTERNAL_ERROR;
        }
      }
      var refresh: Option<Token> := None;
      var offline := ScopeContainsOfflineAccess(rec.scope);
      OfflineExactly(rec.scope);
      if offline {
        var first := RefreshRecord(rec.subject, rec.audience, rec.scope, rec.clientID, 0);
        refresh := IssueRefreshToken(first, refreshJti, fault.RefreshFault?, now);
        if refresh.None? {
          return INTERNAL_ERROR;
        }
      }
      return Tokens(id, access, refresh, Given(rec.scope), ExpiresIn(config));
    }

    /** Signature and claims as the library and the handler check them, then one store operation. */
    method ConsumeRefreshToken(token: Token, parsedAt: int, now: int) returns (outcome: RefreshOutcome)
      requires privKey.Some? && refreshStore != null
      modifies refreshStore
      ensures (refreshStore.records, outcome)
           == ConsumeRefresh(old(refreshStore.records), privKey.value, baseURL, token, parsedAt, now)
    {
      if !Parses(token, privKey.value, parsedAt) {
        return InvalidSignature;
      }
      if token.claims.aud != Some(baseURL + "/refresh") {
        return WrongAudience;
      }
      var jti := if token.claims.jti.Some? then token.claims.jti.value else "";
      if jti == "" {
        return MissingJti;
      }
      if jti !in refreshStore.records {
        return RefreshNotFound;
      }
      var rec := refreshStore.records[jti];
      refreshStore.records := refreshStore.records - {jti};
      if now > rec.expires {
        return RefreshExpired;
      }
      return RefreshOk(jti, rec);
    }

    /** The first half of a refresh: admission, consume, the client check, which never fails. A missing
        `token` is an empty form field, a string that is no JWT a token that does not parse. */
    method PresentRefresh(ghost req: nat, creds: Credentials, token: Option<Token>, parsedAt: int, now: int)
      returns (r: Reply, rec: Option<RefreshRecord>)
      requires Valid() && serving && now == state.now && req !in state.flights && parsedAt <= now
      modifies this`state, refreshStore
      ensures Valid()
      ensures token.None? ==> state == old(state)
      ensures token.Some? ==> state == P.Apply(config, old(state), P.PresentRefresh(req, creds, token.value, parsedAt))
      ensures r == Proceed <==> req in state.flights
      ensures r == Proceed ==> rec.Some? && state.flights[req].RefreshFlight? && state.flights[req].refresh == rec.value
      ensures Admission(config, "refresh_token", creds) != Proceed ==> r == Admission(config, "refresh_token", creds)
      ensures Admission(config, "refresh_token", creds) == Proceed && token.Some? ==>
                var stored := old(refreshStore.records);
                var outcome := ConsumeRefresh(stored, privKey.value, baseURL, token.value, parsedAt, now).1;
                r == if outcome.RefreshOk? then Proceed else RefreshError(outcome)
    {
      hide P.Reachable, P.FreshJti;
      ghost var before := state;
      if token.Some? {
        Step(P.PresentRefresh(req, creds, token.value, parsedAt));
      }
      var admission := Admission(config, "refresh_token", creds);
      if admission != Proceed {
        return admission, None;
      }
      if token.None? {
        return Error(400, "invalid_request", "refresh_token is required"), None;
      }
      var outcome := ConsumeRefreshToken(token.value, parsedAt, now);
      if !outcome.RefreshOk? {
        return RefreshError(outcome), None;
      }
      GrantResults.ClientCheckIsIdle(config, before, token.value, parsedAt);
      if outcome.rec.clientID != config.clientID {
        assert false; // "refresh_token client_id mismatch"
      }
      return Proceed, Some(outcome.rec);
    }

    /** The second half: the next refresh token, then an access token if the grant has an audience. */
    method FinishRefresh(ghost req: nat, rec: RefreshRecord, accessJti: string, refreshJti: string, fault: P.Fault,
        now: int) returns (r: Reply)
      requires Valid() && serving && now == state.now
      requires P.Enabled(state, P.FinishRefresh(req, accessJti, refreshJti, fault))
      requires rec == state.flights[req].refresh
      modifies this`state, refreshStore
      ensures Valid() && state == P.Apply(config, old(state), P.FinishRefresh(req, accessJti, refreshJti, fault))
      ensures r == INTERNAL_ERROR <==> fault.RefreshFault? || (fault.AccessFault? && rec.audience != "")
      ensures r == INTERNAL_ERROR || r.Tokens?
      ensures r.Tokens? ==> state.minted == old(state.minted) + HandedForRefresh(old(state.flights[req].grant), r, now)
      ensures r.Tokens? ==> r.id.None? && r.refresh.Some? && (r.access.Some? <==> rec.audience != "")
      ensures r.Tokens? ==> r.scope == (if rec.scope == "" then None else Some(rec.scope))
      ensures r.Tokens? ==> r.expiresIn == ExpiresIn(config)
    {
      hide P.Reachable;
      ghost var before, grant, jti := state, state.flights[req].grant, state.flights[req].jti;
      RefreshTokensAre(config, P.Land(state, req), grant, jti, rec, accessJti, refreshJti, fault);
      Step(P.FinishRefresh(req, accessJti, refreshJti, fault));
      assert state == P.RefreshTokens(config, P.Land(before, req), grant, jti, rec, accessJti, refreshJti, fault);
      hide P.Apply, P.Enabled, P.RefreshTokens, AccessClaims, RefreshClaims, HandedForRefresh, ExpiresIn, Given;
      var rotated := RefreshRecord(rec.subject, rec.audience, rec.scope, rec.clientID, 0);
      var next := IssueRefreshToken(rotated, refreshJti, fault.RefreshFault?, now);
      if next.None? {
        return INTERNAL_ERROR;
      }
      var access: Option<Token> := None;
      if rec.audience != "" {
        var claims := AccessClaims(config, baseURL, rec.subject, rec.audience, rec.scope, accessJti, now);
        access := SignClaims(claims, fault.AccessFault?);
        if access.None? {
          return INTERNAL_ERROR;
        }
      }
      return Tokens(None, access, next, Given(rec.scope), ExpiresIn(config));
    }

    /** An access token in the client's own name. */
    method HandleClientCredentials(creds: Credentials, audience: string, scope: string, jti: string, fails: bool,
        now: int) returns (r: Reply)
      requires Valid() && serving && now == state.now
      requires P.Enabled(state, P.ClientCredentials(creds, audience, scope, jti))
      modifies this`state
      ensures Valid()
      ensures fails ==> state == old(state)
      ensures !fails ==> state == P.Apply(config, old(state), P.ClientCredentials(creds, audience, scope, jti))
      ensures r.Tokens? <==> Admission(config, "client_credentials", creds) == Proceed && audience != ""
                             && audience in config.allowedAudiences && !fails
      ensures r.Tokens? ==> r.id.None? && r.refresh.None? && r.access.Some?
      ensures r.Tokens? ==> r.access.value.claims.sub == config.clientID && r.access.value.claims.aud == Some(audience)
      ensures r.Tokens? ==> r.access.value.claims.scope == r.scope == (if scope == "" then None else Some(scope))
      ensures r.Tokens? ==> r.expiresIn == ExpiresIn(config)
      ensures r.Tokens? ==> state.minted == old(state.minted) + [P.Mint(P.AccessToken, None, r.access.value, now)]
      ensures !r.Tokens? ==> state == old(state) && r.Error?
      ensures Admission(config, "client_credentials", creds) != Proceed ==>
          r == Admission(config, "client_credentials", creds)
    {
      if !fails {
        Step(P.ClientCredentials(creds, audience, scope, jti));
      }
      var admission := Admission(config, "client_credentials", creds);
      if admission != Proceed {
        return admission;
      }
      if audience == "" {
        return Error(400, "invalid_request", "audience is required for client_credentials");
      }
      if audience !in config.allowedAudiences {
        return Error(400, "invalid_request", "audience not allowed");
      }
      var access := SignClaims(AccessClaims(config, baseURL, config.clientID, audience, scope, jti, now), fails);
      if access.None? {
        return INTERNAL_ERROR;
      }
      return Tokens(None, access, None, Given(scope), ExpiresIn(config));
    }
  }
}
