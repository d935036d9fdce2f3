/** Grants as a state machine: /authorize issues codes, /token redeems them and rotates refresh tokens,
    Start and Stop replace the stores. A step is one atomic store operation together with the code of
    the handler up to its next store operation; a /token request that got past its store is a flight,
    and any number of flights interleave. */
module GrantProtocol {
  import opened OidcSpec

  /** Between Start and Stop. `key` is the signing key of this run, no two runs share one. */
  datatype Run = Run(key: nat, url: string, codes: map<string, CodeRecord>, refreshes: map<string, RefreshRecord>)

  /** What an exchange is paid with. */
  datatype Payment = ByCode(code: string) | ByRefresh(jti: string)

  /** A /token request past its consume, before its tokens. A grant is named by its code. */
  datatype Flight =
    | CodeFlight(grant: string, code: CodeRecord)
    | RefreshFlight(grant: string, jti: string, refresh: RefreshRecord)

  datatype Kind = IdToken | AccessToken | RefreshToken

  /** A token the endpoint signed, and when; `grant` is None for client_credentials. */
  datatype Mint = Mint(kind: Kind, grant: Option<string>, token: Token, at: int)

  /** A code that was issued, with the request it answers, and a refresh token that was issued. */
  datatype Issued = Issued(request: AuthRequest, at: int, rec: CodeRecord, key: nat)
  datatype Ticket = Ticket(payment: Payment, grant: string, rec: RefreshRecord, key: nat)

  datatype State = State(
    run: Option<Run>,
    flights: map<nat, Flight>,     // by request
    now: int,
    // history
    urls: seq<string>,              // the base URL of each run, by key
    grants: map<string, Issued>,    // by code
    tickets: map<string, Ticket>,   // by jti
    accessJtis: set<string>,
    redeemed: seq<string>,          // codes past consume, in order
    rotated: seq<string>,           // jtis past consume, in order
    verifiers: map<string, string>, // the verifier a redeemed code came with
    minted: seq<Mint>)

  const INITIAL := State(None, map[], 0, [], map[], map[], {}, [], [], map[], [])

  /** Where randomness or signing fails in a handler's token part, if anywhere. */
  datatype Fault = NoFault | IdFault | AccessFault | RefreshFault

  datatype Step =
    | StartServer(url: string)
    | StopServer
    | Tick(d: nat)
    | Authorize(q: AuthRequest, code: string)
    | PresentCode(req: nat, creds: Credentials, code: string, uri: string, verifier: string)
    | FinishCode(req: nat, accessJti: string, refreshJti: string, fault: Fault)
    | PresentRefresh(req: nat, creds: Credentials, token: Token, parsedAt: int)
    | FinishRefresh(req: nat, accessJti: string, refreshJti: string, fault: Fault)
    | ClientCredentials(creds: Credentials, audience: string, scope: string, jti: string)

  predicate FreshJti(s: State, jti: string) {
    jti != "" && jti !in s.tickets && jti !in s.accessJtis
  }

  /** Random codes and jtis are fresh; no handler is in flight when the server stops. */
  predicate Enabled(s: State, step: Step) {
    match step
    case StartServer(_) => s.run.None?
    case StopServer => s.flights == map[]
    case Tick(_) => true
    case Authorize(_, code) => s.run.Some? && code != "" && code !in s.grants
    case PresentCode(req, _, _, _, _) => s.run.Some? && req !in s.flights
    case FinishCode(req, a, r, _) =>
      s.run.Some? && req in s.flights && s.flights[req].CodeFlight? && FreshJti(s, a) && FreshJti(s, r) && a != r
    case PresentRefresh(req, _, _, parsedAt) => s.run.Some? && req !in s.flights && parsedAt <= s.now
    case FinishRefresh(req, a, r, _) =>
      s.run.Some? && req in s.flights && s.flights[req].RefreshFlight? && FreshJti(s, a) && FreshJti(s, r) && a != r
    case ClientCredentials(_, _, _, jti) => s.run.Some? && FreshJti(s, jti)
  }

  function SignAccess(c: Config, s: State, grant: Option<string>, sub: string, audience: string, scope: string,
      jti: string): State
    requires s.run.Some?
  {
    var token := Token(true, s.run.value.key, AccessClaims(c, s.run.value.url, sub, audience, scope, jti, s.now));
    s.(accessJtis := s.accessJtis + {jti}, minted := s.minted + [Mint(AccessToken, grant, token, s.now)])
  }

  function SignId(c: Config, s: State, grant: string, rec: CodeRecord): State
    requires s.run.Some?
  {
    var token := Token(true, s.run.value.key, IdClaims(c, s.run.value.url, rec, s.now));
    s.(minted := s.minted + [Mint(IdToken, Some(grant), token, s.now)])
  }

  /** Signs a refresh token and stores its record. */
  function IssueRefresh(s: State, payment: Payment, grant: string, rec: RefreshRecord, jti: string): State
    requires s.run.Some?
  {
    var r := s.run.value;
    var token := Token(true, r.key, RefreshClaims(r.url, rec, jti, s.now));
    s.(run := Some(r.(refreshes := r.refreshes[jti := rec])),
       tickets := s.tickets[jti := Ticket(payment, grant, rec, r.key)],
       minted := s.minted + [Mint(RefreshToken, Some(grant), token, s.now)])
  }

  /** The token part of a code exchange: id token, access token if an audience was asked for, refresh
      token if offline access was; a failure ends it. */
  function CodeTokens(c: Config, s: State, grant: string, rec: CodeRecord, a: string, r: string, fault: Fault): State
    requires s.run.Some?
  {
    if fault.IdFault? then s
    else
      var s1 := SignId(c, s, grant, rec);
      if rec.audience != "" && fault.AccessFault? then s1
      else
        var s2 :=
          if rec.audience != "" then SignAccess(c, s1, Some(grant), rec.subject, rec.audience, rec.scope, a) else s1;
        if !OffersOffline(rec.scope) || fault.RefreshFault? then s2
        else IssueRefresh(s2, ByCode(grant), grant, FromCode(c, rec, s.now), r)
  }

  /** The token part of a refresh: the next refresh token, then the access token if there was one. */
  function RefreshTokens(c: Config, s: State, grant: string, jti: string, rec: RefreshRecord, a: string, r: string,
      fault: Fault): State
    requires s.run.Some?
  {
    if fault.RefreshFault? then s
    else
      var s1 := IssueRefresh(s, ByRefresh(jti), grant, Rotated(c, rec, s.now), r);
      if rec.audience == "" || fault.AccessFault? then s1
      else SignAccess(c, s1, Some(grant), rec.subject, rec.audience, rec.scope, a)
  }

  function Land(s: State, req: nat): State {
    s.(flights := s.flights - {req})
  }

  /** A code is presented: one store operation, then the PKCE check. */
  function Redeem(c: Config, s: State, req: nat, code: string, uri: string, verifier: string): State
    requires s.run.Some?
  {
    var (codes, outcome) := ConsumeCode(s.run.value.codes, code, uri, s.now);
    var s1 := s.(run := Some(s.run.value.(codes := codes)));
    match outcome
    case CodeOk(rec) =>
      var s2 := s1.(redeemed := s.redeemed + [code], verifiers := s.verifiers[code := verifier]);
      if rec.codeChallenge != "" && ValidatePkce(c, verifier, rec.codeChallenge) != PkceOk then s2
      else s2.(flights := s.flights[req := CodeFlight(code, rec)])
    case _ => s1
  }

  /** A refresh token is presented: signature and claims, then one store operation, then the client check. */
  function Refresh(c: Config, s: State, req: nat, token: Token, parsedAt: int): State
    requires s.run.Some?
  {
    var r := s.run.value;
    var (refreshes, outcome) := ConsumeRefresh(r.refreshes, r.key, r.url, token, parsedAt, s.now);
    var s1 := s.(run := Some(r.(refreshes := refreshes)));
    match outcome
    case RefreshOk(jti, rec) =>
      var s2 := s1.(rotated := s.rotated + [jti]);
      if rec.clientID != c.clientID || jti !in s.tickets then s2
      else s2.(flights := s.flights[req := RefreshFlight(s.tickets[jti].grant, jti, rec)])
    case _ => s1
  }

  function Apply(c: Config, s: State, step: Step): State
    requires Enabled(s, step)
  {
    match step
    case StartServer(url) => s.(run := Some(Run(|s.urls|, url, map[], map[])), urls := s.urls + [url])
    case StopServer => s.(run := None)
    case Tick(d) => s.(now := s.now + d)
    case Authorize(q, code) =>
      (match Decide(c, q, s.now)
       case Grant(rec) =>
         s.(run := Some(s.run.value.(codes := s.run.value.codes[code := rec])),
            grants := s.grants[code := Issued(q, s.now, rec, s.run.value.key)])
       case _ => s)
    case PresentCode(req, creds, code, uri, verifier) =>
      if Authenticate(c, creds) != AuthOk || code == "" || uri == "" then s
      else Redeem(c, s, req, code, uri, verifier)
    case FinishCode(req, a, r, fault) =>
      CodeTokens(c, Land(s, req), s.flights[req].grant, s.flights[req].code, a, r, fault)
    case PresentRefresh(req, creds, token, parsedAt) =>
      if Authenticate(c, creds) != AuthOk then s else Refresh(c, s, req, token, parsedAt)
    case FinishRefresh(req, a, r, fault) =>
      RefreshTokens(c, Land(s, req), s.flights[req].grant, s.flights[req].jti, s.flights[req].refresh, a, r, fault)
    case ClientCredentials(creds, audience, scope, jti) =>
      if Authenticate(c, creds) != AuthOk || audience == "" || audience !in c.allowedAudiences then s
      else SignAccess(c, s, None, c.clientID, audience, scope, jti)
  }

  ghost predicate Runs(c: Config, s: State, steps: seq<Step>, t: State)
    decreases |steps|
  {
    if steps == [] then s == t
    else Enabled(s, steps[0]) && Runs(c, Apply(c, s, steps[0]), steps[1..], t)
  }

  ghost predicate Reachable(c: Config, t: State) {
    exists steps :: Runs(c, INITIAL, steps, t)
  }

  lemma {:induction false} RunsOn(c: Config, s: State, steps: seq<Step>, t: State, step: Step)
    requires Runs(c, s, steps, t) && Enabled(t, step)
    ensures Runs(c, s, steps + [step], Apply(c, t, step))
    decreases |steps|
  {
    hide Apply, Enabled;
    var more := steps + [step];
    if steps == [] {
      assert more[0] == step && more[1..] == [];
    } else {
      RunsOn(c, Apply(c, s, steps[0]), steps[1..], t, step);
      assert more[0] == steps[0] && more[1..] == steps[1..] + [step];
    }
  }

  lemma ReachableOn(c: Config, s: State, step: Step)
    requires Reachable(c, s) && Enabled(s, step)
    ensures Reachable(c, Apply(c, s, step))
  {
    var steps :| Runs(c, INITIAL, steps, s);
    RunsOn(c, INITIAL, steps, s, step);
  }
}
