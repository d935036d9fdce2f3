/** What the grant machine's invariant means for clients, over every run. */
module GrantResults {
  import opened OidcSpec
  import opened GrantProtocol
  import opened GrantInvariant
  import opened GrantSteps

  // ---------- One grant, one holder ----------

  function CodesOf(s: State, g: string): set<string> {
    set code | code in s.grants && code !in s.redeemed && code == g
  }

  function FlightsOf(s: State, g: string): set<nat> {
    set req | req in s.flights && s.flights[req].grant == g
  }

  function TicketsOf(s: State, g: string): set<string> {
    set j | j in s.tickets && j !in s.rotated && s.tickets[j].grant == g
  }

  lemma AtMostOne<T>(q: set<T>)
    requires forall x, y :: x in q && y in q ==> x == y
    ensures |q| <= 1
  {
    if x :| x in q {
      assert q == {x};
    }
  }

  lemma OneCode(s: State, g: string)
    ensures |CodesOf(s, g)| <= 1 && (forall code :: code in CodesOf(s, g) ==> HeldIn(s, TheCode(code)) == Some(g))
  {
    AtMostOne(CodesOf(s, g));
  }

  lemma OneFlight(s: State, g: string)
    requires Linear(s)
    ensures |FlightsOf(s, g)| <= 1 && (forall req :: req in FlightsOf(s, g) ==> HeldIn(s, TheFlight(req)) == Some(g))
  {
    assert forall req :: req in FlightsOf(s, g) ==> HeldIn(s, TheFlight(req)) == Some(g);
    hide HeldIn, FlightsOf;
    AtMostOne(FlightsOf(s, g));
  }

  lemma OneTicket(s: State, g: string)
    requires Linear(s)
    ensures |TicketsOf(s, g)| <= 1 && (forall j :: j in TicketsOf(s, g) ==> HeldIn(s, TheRefresh(j)) == Some(g))
  {
    assert forall j :: j in TicketsOf(s, g) ==> HeldIn(s, TheRefresh(j)) == Some(g);
    hide HeldIn, TicketsOf;
    AtMostOne(TicketsOf(s, g));
  }

  lemma Exclusive(s: State, h: Holder, k: Holder)
    requires Linear(s) && HeldIn(s, h).Some? && HeldIn(s, h) == HeldIn(s, k)
    ensures h == k
  {
    hide HeldIn;
  }

  /** For each authorization, unredeemed code, exchanges in flight and unrotated refresh tokens come to
      at most one; counting also what has expired or was issued in an earlier run. */
  lemma LinearGrant(c: Config, s: State, g: string)
    requires Reachable(c, s)
    ensures |CodesOf(s, g)| + |FlightsOf(s, g)| + |TicketsOf(s, g)| <= 1
  {
    ReachableInv(c, s);
    assert Linear(s);
    hide Inv, Reachable, HeldIn, CodesOf, FlightsOf, TicketsOf, Linear;
    OneCode(s, g);
    OneFlight(s, g);
    OneTicket(s, g);
    var codes, flights, tickets := CodesOf(s, g), FlightsOf(s, g), TicketsOf(s, g);
    if code :| code in codes {
      if req :| req in flights { Exclusive(s, TheFlight(req), TheCode(code)); }
      if j :| j in tickets { Exclusive(s, TheRefresh(j), TheCode(code)); }
    } else if req :| req in flights {
      if j :| j in tickets { Exclusive(s, TheRefresh(j), TheFlight(req)); }
    }
  }

  /** What the stores hold is part of that count. */
  lemma StoresAreHeld(c: Config, s: State, g: string)
    requires Reachable(c, s) && s.run.Some?
    ensures g in s.run.value.codes ==> g in CodesOf(s, g)
    ensures forall j :: j in s.run.value.refreshes && j in s.tickets && s.tickets[j].grant == g ==> j in TicketsOf(s, g)
    ensures forall j :: j in s.run.value.refreshes ==> j in s.tickets
  {
    ReachableInv(c, s);
    hide Past, GoodFlights, Linear, Reachable;
  }

  /** Every refresh token was bought with its grant's code or an earlier refresh token of the same
      grant, which is spent, and no payment buys twice. */
  lemma RotationNeverForks(c: Config, s: State, i: string, j: string)
    requires Reachable(c, s) && i in s.tickets && j in s.tickets
    ensures Paid(s, s.tickets[i].payment, s.tickets[i].grant)
    ensures s.tickets[i].payment == s.tickets[j].payment ==> i == j
  {
    ReachableInv(c, s);
    hide Present, Reachable;
    assert TicketOk(c, s, i);
  }

  /** No code and no refresh token gets past consume twice, over all runs. */
  lemma SpentAtMostOnce(c: Config, s: State, i: nat, j: nat)
    requires Reachable(c, s)
    ensures i < j < |s.redeemed| ==> s.redeemed[i] != s.redeemed[j]
    ensures i < j < |s.rotated| ==> s.rotated[i] != s.rotated[j]
  {
    ReachableInv(c, s);
    hide Present, Reachable;
  }

  // ---------- Redeeming a code ----------

  predicate Redeemable(s: State, code: string, uri: string) {
    && s.run.Some? && code in s.grants && s.grants[code].key == s.run.value.key && code !in s.redeemed
    && s.now <= s.grants[code].rec.expiresAt && uri == s.grants[code].rec.redirectURI
  }

  /** A code is accepted exactly if this run issued it, it was not accepted before, it has not expired
      and the redirect URI is the one it was issued for. */
  lemma CodeAcceptedExactly(c: Config, s: State, code: string, uri: string)
    requires Reachable(c, s) && s.run.Some?
    ensures var outcome := ConsumeCode(s.run.value.codes, code, uri, s.now).1;
            && (outcome.CodeOk? <==> Redeemable(s, code, uri))
            && (outcome.CodeOk? ==> outcome.rec == s.grants[code].rec)
  {
    ReachableInv(c, s);
    hide Past, GoodFlights, GoodRefreshes, Linear, Reachable;
  }

  /** A wrong redirect URI costs nothing: the state is as before, so the right one still works. */
  lemma MismatchCostsNothing(c: Config, s: State, req: nat, creds: Credentials, code: string, uri: string,
      verifier: string)
    requires Reachable(c, s) && Enabled(s, PresentCode(req, creds, code, uri, verifier))
    requires code in s.grants && Redeemable(s, code, s.grants[code].rec.redirectURI)
    requires uri != s.grants[code].rec.redirectURI
    ensures Apply(c, s, PresentCode(req, creds, code, uri, verifier)) == s
  {
    CodeAcceptedExactly(c, s, code, s.grants[code].rec.redirectURI);
    hide Authenticate, Reachable;
  }

  /** A failed PKCE check burns the code: it is never accepted again and never buys a token. */
  lemma FailedPkceBurns(c: Config, s: State, req: nat, creds: Credentials, code: string, uri: string, verifier: string,
                        steps: seq<Step>, t: State)
    requires Reachable(c, s) && Enabled(s, PresentCode(req, creds, code, uri, verifier))
    requires Authenticate(c, creds) == AuthOk && code != "" && uri != "" && Redeemable(s, code, uri)
    requires s.grants[code].rec.codeChallenge != ""
    requires ValidatePkce(c, verifier, s.grants[code].rec.codeChallenge) != PkceOk
    requires Runs(c, Apply(c, s, PresentCode(req, creds, code, uri, verifier)), steps, t)
    ensures code in t.redeemed
    ensures forall i :: 0 <= i < |t.minted| ==> t.minted[i].grant != Some(code)
  {
    var step := PresentCode(req, creds, code, uri, verifier);
    var u := Apply(c, s, step);
    CodeAcceptedExactly(c, s, code, uri);
    ReachableInv(c, s);
    assert u == Burnt(s, code, verifier);
    assert u.redeemed[|s.redeemed|] == code && u.verifiers[code] == verifier && u.grants == s.grants;
    hide Apply, Authenticate, Inv, Reachable, Redeemable, ConsumeCode, Burnt;
    StepKeeps(c, s, step);
    RunKeeps(c, u, steps, t);
    hide Runs, Enabled;
    BurntBuysNothing(c, u, t, code);
  }

  lemma BurntBuysNothing(c: Config, u: State, t: State, code: string)
    requires Inv(c, t) && Grows(u, t) && code in u.redeemed && code in u.grants && code in u.verifiers
    requires u.grants[code].rec.codeChallenge != ""
    requires ValidatePkce(c, u.verifiers[code], u.grants[code].rec.codeChallenge) != PkceOk
    ensures code in t.redeemed
    ensures forall i :: 0 <= i < |t.minted| ==> t.minted[i].grant != Some(code)
  {
    assert code in t.redeemed && code in t.verifiers && t.verifiers[code] == u.verifiers[code]
        && t.grants[code] == u.grants[code];
    assert GoodMints(c, t);
    hide Inv, Grows, ValidatePkce;
    forall i | 0 <= i < |t.minted| ensures t.minted[i].grant != Some(code) {
      assert MintOk(c, t, t.minted[i]);
    }
  }

  // ---------- Provenance ----------

  /** What a token minted for a grant says, in terms of the one /authorize request behind it. */
  predicate From(c: Config, q: AuthRequest, at: int, m: Mint) {
    var t := m.token.claims;
    && t.sub == (if q.sub != "" then q.sub else if q.subject != "" then q.subject else c.defaultSubject)
    && match m.kind
       case IdToken => t.aud == Some(c.clientID) && t.authTime == Some(Unix(at))
                       && t.nonce == (if q.nonce == "" then None else Some(q.nonce))
                       && t.azp == if q.audience != "" then Some(c.clientID) else None
       case AccessToken => t.aud == Some(q.audience) && q.audience in c.allowedAudiences
                           && t.scope == (if q.scope == "" then None else Some(q.scope))
       case RefreshToken => t.scope == Some(q.scope) && OffersOffline(q.scope) && t.clientID == Some(c.clientID)
  }

  /** The client proved it holds the challenge's verifier (section 4.6 of RFC 7636). */
  predicate Verified(c: Config, challenge: string, verifier: string) {
    challenge == "" || (43 <= |verifier| <= 128 && AllUnreserved(verifier) && c.s256(verifier) == challenge)
  }

  lemma DecidedFor(c: Config, q: AuthRequest, at: int, rec: CodeRecord)
    requires Decide(c, q, at) == Grant(rec)
    ensures rec.subject == FirstGiven(q.sub, q.subject, c.defaultSubject)
    ensures rec.audience == q.audience && rec.scope == q.scope
    ensures rec.nonce == q.nonce && rec.state == q.state && rec.authTime == at && rec.expiresAt == at + c.codeTTL
    ensures rec.codeChallenge == q.codeChallenge && rec.clientID == c.clientID
    ensures q.redirectURI in c.redirectURIs && rec.redirectURI == q.redirectURI
    ensures q.audience == "" || q.audience in c.allowedAudiences
  {
  }

  /** Only accepted /authorize requests put codes into the store: each live code is for the issuer's
      client, a registered redirect URI and an allowed audience or none, its challenge if any is S256,
      and it lives exactly the configured time from a moment that is not in the future. */
  lemma StoredCodesAreGranted(c: Config, s: State, code: string)
    requires Reachable(c, s) && s.run.Some? && code in s.run.value.codes
    ensures code in s.grants
    ensures var rec, q := s.run.value.codes[code], s.grants[code].request;
            && rec.clientID == c.clientID && rec.redirectURI in c.redirectURIs
            && (rec.audience == "" || rec.audience in c.allowedAudiences)
            && (rec.codeChallenge != "" ==> q.codeChallengeMethod == "S256" && rec.codeChallenge == q.codeChallenge)
            && rec.authTime <= s.now && rec.expiresAt == rec.authTime + c.codeTTL
  {
    ReachableInv(c, s);
    hide GoodTickets, GoodMints, NoForks, Separate, SpentOnce, GoodFlights, GoodRefreshes, Linear, Reachable;
    assert GrantOk(c, s, code);
  }

  /** Every token minted through a code or a chain of refreshes carries subject, audience and scope of
      one /authorize request, whose challenge was answered. */
  lemma Provenance(c: Config, s: State, m: Mint)
    requires Reachable(c, s) && m in s.minted && m.grant.Some?
    ensures var g := m.grant.value;
            && g in s.grants && g in s.redeemed
            && From(c, s.grants[g].request, s.grants[g].at, m) && m.token.key == s.grants[g].key && Stamped(c, s, m)
            && (g in s.verifiers || s.grants[g].request.codeChallenge == "")
            && (g in s.verifiers ==> Verified(c, s.grants[g].request.codeChallenge, s.verifiers[g]))
    ensures var q, sub := s.grants[m.grant.value].request, m.token.claims.sub;
            && (q.sub != "" ==> sub == q.sub) && (q.sub == "" && q.subject != "" ==> sub == q.subject)
            && (q.sub == "" && q.subject == "" ==> sub == c.defaultSubject)
  {
    var g := m.grant.value;
    MintIsGood(c, s, m);
    assert MintOk(c, s, m);
    if m.kind == RefreshToken {
      TicketIsGood(c, s, m.token.claims.jti.value);
    }
    DecidedFor(c, s.grants[g].request, s.grants[g].at, s.grants[g].rec);
    if s.grants[g].rec.codeChallenge != "" {
      PkceExactly(c, s.verifiers[g], s.grants[g].rec.codeChallenge);
    }
    hide Decide, OffersOffline, ValidatePkce, Reachable;
  }

  lemma MintIsGood(c: Config, s: State, m: Mint)
    requires Reachable(c, s) && m in s.minted
    ensures MintOk(c, s, m)
    ensures m.grant.Some? ==> GrantOk(c, s, m.grant.value)
  {
    ReachableInv(c, s);
    hide Present, Reachable;
    var i: nat :| i < |s.minted| && s.minted[i] == m;
    assert MintOk(c, s, s.minted[i]);
    if m.grant.Some? { assert GrantOk(c, s, m.grant.value); }
  }

  lemma TicketIsGood(c: Config, s: State, j: string)
    requires Reachable(c, s) && j in s.tickets
    ensures TicketOk(c, s, j)
  {
    ReachableInv(c, s);
    hide Present, Reachable, TicketOk;
  }

  /** Without a grant only access tokens are minted, in the client's own name. */
  lemma ClientTokens(c: Config, s: State, m: Mint)
    requires Reachable(c, s) && m in s.minted && m.grant.None?
    ensures m.kind == AccessToken && m.token.claims.sub == c.clientID && Stamped(c, s, m)
    ensures m.token.claims.aud.Some? && m.token.claims.aud.value in c.allowedAudiences
  {
    MintIsGood(c, s, m);
  }

  /** A client credentials request of the right client for an allowed audience is answered with one new
      token, which says exactly what was asked; any other mints nothing. */
  lemma ClientTokenSaysWhatWasAsked(c: Config, s: State, creds: Credentials, audience: string, scope: string,
      jti: string)
    requires Enabled(s, ClientCredentials(creds, audience, scope, jti))
    ensures var t := Apply(c, s, ClientCredentials(creds, audience, scope, jti));
            if Authenticate(c, creds) == AuthOk && audience != "" && audience in c.allowedAudiences then
              && |t.minted| == |s.minted| + 1 && t.minted[..|s.minted|] == s.minted
              && t.accessJtis == s.accessJtis + {jti} && t.run == s.run && t.flights == s.flights
              && var m := t.minted[|s.minted|];
                 && m.kind == AccessToken && m.grant == None && m.at == s.now
                 && m.token.claims.sub == c.clientID && m.token.claims.aud == Some(audience)
                 && m.token.claims.scope == (if scope == "" then None else Some(scope))
                 && m.token.claims.jti == Some(jti) && m.token.claims.iss == s.run.value.url
            else t == s
  {
    hide Authenticate, FreshJti;
  }

  /** Whoever does not authenticate gets nothing: no store changes, no exchange begins, no token is minted. */
  lemma StrangersGetNothing(c: Config, s: State, step: Step)
    requires Enabled(s, step) && (step.PresentCode? || step.PresentRefresh? || step.ClientCredentials?)
    requires !(step.creds.basic.Some? && step.creds.basic.value.0 == c.clientID
               && step.creds.basic.value.1 == c.clientSecret && step.creds.bodyID == "" && step.creds.bodySecret == "")
    requires !(step.creds.basic.None? && step.creds.bodyID == c.clientID && step.creds.bodySecret == c.clientSecret
               && !(step.creds.bodyID == "" && step.creds.bodySecret == ""))
    ensures Apply(c, s, step) == s
  {
    AuthenticatedExactly(c, step.creds);
    hide Authenticate, FreshJti, Redeem, Refresh, AccessClaims;
  }

  /** Anybody may ask for anything at any time: no request is ruled out by the machine, only refused, and an
      exchange that has begun may end at any time, with any failure. */
  lemma NothingIsRuledOut(s: State, q: AuthRequest, creds: Credentials, code: string, uri: string, verifier: string,
                          token: Token, parsedAt: int, audience: string, scope: string, req: nat)
    requires s.run.Some?
    ensures code != "" && code !in s.grants ==> Enabled(s, Authorize(q, code))
    ensures req !in s.flights ==> Enabled(s, PresentCode(req, creds, code, uri, verifier))
    ensures req !in s.flights && parsedAt <= s.now ==> Enabled(s, PresentRefresh(req, creds, token, parsedAt))
    ensures forall jti :: FreshJti(s, jti) ==> Enabled(s, ClientCredentials(creds, audience, scope, jti))
    ensures forall a, r, fault :: FreshJti(s, a) && FreshJti(s, r) && a != r && req in s.flights ==>
              if s.flights[req].CodeFlight? then Enabled(s, FinishCode(req, a, r, fault))
              else Enabled(s, FinishRefresh(req, a, r, fault))
    ensures s.flights == map[] ==> Enabled(s, StopServer)
  {
    hide FreshJti;
  }

  /** Which /authorize requests are granted, and that it means something: a request of the client, with a
      registered redirect URI, for a code, for an allowed audience or none, with an S256 challenge or none,
      puts its code on record, and the code can be redeemed at once; any other changes nothing. */
  lemma GrantIsRedeemable(c: Config, s: State, q: AuthRequest, code: string)
    requires Reachable(c, s) && Enabled(s, Authorize(q, code)) && c.codeTTL >= 0
    ensures var t := Apply(c, s, Authorize(q, code));
            var wanted := && q.clientID == c.clientID && q.clientID != ""
                          && q.redirectURI in c.redirectURIs && q.redirectURI != "" && q.responseType == "code"
                          && (q.audience == "" || q.audience in c.allowedAudiences)
                          && (q.codeChallenge == "" || q.codeChallengeMethod == "S256");
            && (wanted ==> code in t.grants && t.grants[code].request == q && Redeemable(t, code, q.redirectURI))
            && (!wanted ==> t == s)
  {
    var d := Decide(c, q, s.now);
    DecidedExactly(c, q, s.now);
    if d.Grant? {
      ReachableInv(c, s);
      assert code !in s.redeemed by {
        hide Present;
        NewCodeIsUnspent(c, s, code);
      }
      DecidedFor(c, q, s.now, d.rec);
    }
    hide Inv, Reachable, Decide;
  }

  // ---------- Refresh tokens ----------

  function Consume(s: State, token: Token, parsedAt: int): RefreshOutcome
    requires s.run.Some?
  {
    ConsumeRefresh(s.run.value.refreshes, s.run.value.key, s.run.value.url, token, parsedAt, s.now).1
  }

  /** The client check after consume never fails, whoever signed the token. */
  lemma ClientCheckIsIdle(c: Config, s: State, token: Token, parsedAt: int)
    requires Reachable(c, s) && s.run.Some? && Consume(s, token, parsedAt).RefreshOk?
    ensures var o := Consume(s, token, parsedAt);
            && o.rec.clientID == c.clientID && OffersOffline(o.rec.scope)
            && o.jti in s.tickets && s.tickets[o.jti].rec == o.rec
  {
    ReachableInv(c, s);
    AcceptedWasStored(s, token, parsedAt);
    hide GoodMints, NoForks, Separate, SpentOnce, GoodFlights, GoodCodes, Linear, Reachable, GoodGrants, GoodTickets,
        GoodRefreshes, Consume, OffersOffline, GrantOk;
    LiveRefresh(c, s, Consume(s, token, parsedAt).jti);
  }

  lemma AcceptedWasStored(s: State, token: Token, parsedAt: int)
    requires s.run.Some? && Consume(s, token, parsedAt).RefreshOk?
    ensures var o := Consume(s, token, parsedAt);
            o.jti in s.run.value.refreshes && s.run.value.refreshes[o.jti] == o.rec
  {
    hide Parses;
  }

  /** What the store says about a refresh token that was issued. */
  lemma StoredRefresh(c: Config, s: State, j: string)
    requires Reachable(c, s) && s.run.Some? && j in s.tickets
    ensures var t, run := s.tickets[j], s.run.value;
            && (j in run.refreshes ==> t.key == run.key && run.refreshes[j] == t.rec && j !in s.rotated)
            && (t.key == run.key && j !in s.rotated && s.now <= t.rec.expires ==> j in run.refreshes)
            && run.key < |s.urls| && s.urls[run.key] == run.url
  {
    ReachableInv(c, s);
    hide Past, GoodFlights, GoodCodes, Linear, Reachable;
  }

  /** Which tokens a refresh accepts at all, whoever signed them: RS256 under this run's key, with its time
      claims met when parsed and this issuer's refresh audience, naming a refresh token that this run issued,
      that was not rotated and has not expired. */
  lemma AnyTokenAcceptedExactly(c: Config, s: State, t: Token, parsedAt: int)
    requires Reachable(c, s) && s.run.Some?
    ensures Consume(s, t, parsedAt).RefreshOk?
       <==> && t.rs256 && t.key == s.run.value.key && t.claims.aud == Some(s.run.value.url + "/refresh")
            && (t.claims.exp.None? || parsedAt < t.claims.exp.value * 1_000_000_000)
            && (t.claims.nbf.None? || t.claims.nbf.value * 1_000_000_000 <= parsedAt)
            && t.claims.jti.Some? && t.claims.jti.value in s.tickets && t.claims.jti.value !in s.rotated
            && s.tickets[t.claims.jti.value].key == s.run.value.key
            && s.now <= s.tickets[t.claims.jti.value].rec.expires
  {
    var run := s.run.value;
    RefreshConsumedExactly(run.refreshes, run.key, run.url, t, parsedAt, s.now);
    ReachableInv(c, s);
    assert Separate(s.tickets, s.accessJtis);
    hide GoodGrants, GoodTickets, GoodMints, NoForks, SpentOnce, GoodFlights, GoodCodes, Linear, Reachable,
         ConsumeRefresh;
  }

  /** What a minted refresh token says about the record it names. */
  lemma MintedRefresh(c: Config, s: State, m: Mint)
    requires Reachable(c, s) && s.run.Some? && m in s.minted && m.kind == RefreshToken
    ensures m.token.claims.jti.Some? && m.token.claims.jti.value in s.tickets
    ensures var t, run, j := m.token, s.run.value, m.token.claims.jti.value;
            && j != "" && t.rs256 && t.key == s.tickets[j].key && t.claims.nbf == None
            && t.claims.exp == Some(Unix(s.tickets[j].rec.expires))
            && (t.key == run.key ==> t.claims.aud == Some(run.url + "/refresh"))
            && (j in run.refreshes ==> t.key == run.key && run.refreshes[j] == s.tickets[j].rec && j !in s.rotated)
            && (t.key == run.key && j !in s.rotated && s.now <= s.tickets[j].rec.expires ==> j in run.refreshes)
  {
    MintIsGood(c, s, m);
    assert RefreshMintOk(s, m.grant.value, m.token) && Stamped(c, s, m);
    hide MintOk, Reachable, TicketOk, GrantOk;
    StoredRefresh(c, s, m.token.claims.jti.value);
  }

  /** A refresh token the endpoint minted is accepted exactly if this run minted it, it was not rotated,
      and it had not expired to the second when parsed, nor since. */
  lemma RefreshAcceptedExactly(c: Config, s: State, m: Mint, parsedAt: int)
    requires Reachable(c, s) && s.run.Some? && m in s.minted && m.kind == RefreshToken && parsedAt <= s.now
    ensures m.token.claims.jti.Some? && m.token.claims.jti.value in s.tickets
    ensures var j := m.token.claims.jti.value;
            var expires := s.tickets[j].rec.expires;
            Consume(s, m.token, parsedAt).RefreshOk? <==>
              m.token.key == s.run.value.key && j !in s.rotated && parsedAt < Unix(expires) * SECOND && s.now <= expires
  {
    MintedRefresh(c, s, m);
    hide Reachable;
  }

  /** A refresh token just issued is good exactly if its expiry, cut to the second, lies ahead. */
  lemma IssuedIsUsable(s: State, p: Payment, g: string, rec: RefreshRecord, jti: string)
    requires s.run.Some? && jti != ""
    ensures var t := IssueRefresh(s, p, g, rec, jti);
            && |t.minted| == |s.minted| + 1 && t.now == s.now && t.run.Some?
            && var m := t.minted[|s.minted|];
               && m.kind == RefreshToken && m.grant == Some(g) && m.token.claims.jti == Some(jti)
               && (Consume(t, m.token, t.now).RefreshOk? <==> t.now < Unix(rec.expires) * SECOND)
  {
    assert Unix(rec.expires) * SECOND <= rec.expires;
    hide Unix;
  }

  lemma ASecondSuffices(now: int, ttl: int)
    ensures ttl >= SECOND ==> now < Unix(now + ttl) * SECOND
  {}

  /** Rotation hands out a refresh token of the same grant, usable on arrival exactly if its expiry, cut
      to the second, still lies ahead. */
  lemma RotationIsUsable(c: Config, s: State, req: nat, a: string, r: string, fault: Fault)
    requires Reachable(c, s) && Enabled(s, FinishRefresh(req, a, r, fault)) && fault != RefreshFault
    ensures var t := Apply(c, s, FinishRefresh(req, a, r, fault));
            && t.run.Some? && |s.minted| < |t.minted|
            && var m := t.minted[|s.minted|];
               && m.kind == RefreshToken && m.grant == Some(s.flights[req].grant) && m.token.claims.jti == Some(r)
               && (Consume(t, m.token, t.now).RefreshOk? <==> t.now < Unix(t.now + c.refreshTTL) * SECOND)
               && (c.refreshTTL >= SECOND ==> Consume(t, m.token, t.now).RefreshOk?)
  {
    var f, landed := s.flights[req], Land(s, req);
    IssuedIsUsable(landed, ByRefresh(f.jti), f.grant, Rotated(c, f.refresh, s.now), r);
    ASecondSuffices(s.now, c.refreshTTL);
    hide Reachable, AccessClaims, OffersOffline, IssueRefresh, ConsumeRefresh, Unix;
  }

  /** At one clock reading an expired refresh token is reported as badly signed and stays in the store;
      the expired branch needs the record to expire between parsing and lookup. */
  lemma ExpiredBranchNeedsDelay(c: Config, s: State, m: Mint, parsedAt: int)
    requires Reachable(c, s) && s.run.Some? && m in s.minted && m.kind == RefreshToken && parsedAt <= s.now
    ensures m.token.claims.jti.Some? && m.token.claims.jti.value in s.tickets
    ensures var j, run := m.token.claims.jti.value, s.run.value;
            var expires := s.tickets[j].rec.expires;
            && (Consume(s, m.token, parsedAt).RefreshExpired? <==>
                  j in run.refreshes && parsedAt < Unix(expires) * SECOND && expires < s.now)
            && (expires <= s.now ==>
                  ConsumeRefresh(run.refreshes, run.key, run.url, m.token, s.now, s.now)
                  == (run.refreshes, InvalidSignature))
  {
    MintedRefresh(c, s, m);
    hide Reachable;
  }

  /** No access or id token the endpoint minted is ever taken for a refresh token. */
  lemma TokenSeparation(c: Config, s: State, m: Mint, parsedAt: int)
    requires Reachable(c, s) && s.run.Some? && m in s.minted && m.kind != RefreshToken
    ensures !Consume(s, m.token, parsedAt).RefreshOk?
  {
    MintIsGood(c, s, m);
    assert MintOk(c, s, m);
    ReachableInv(c, s);
    assert Separate(s.tickets, s.accessJtis);
    hide Past, GoodFlights, GoodCodes, Linear, Reachable, TicketOk, GrantOk, Parses;
  }

  // ---------- Start and Stop ----------

  predicate SameRun(s: State, t: State) {
    && t.urls == s.urls && (s.run.None? ==> t.run.None?)
    && (s.run.Some? ==> t.run.Some? && t.run.value.key == s.run.value.key)
  }

  lemma TokensKeepRun(c: Config, s: State, g: string, code: CodeRecord, jti: string, rec: RefreshRecord, a: string,
      r: string, fault: Fault)
    requires s.run.Some?
    ensures SameRun(s, CodeTokens(c, s, g, code, a, r, fault))
    ensures SameRun(s, RefreshTokens(c, s, g, jti, rec, a, r, fault))
  {
    hide AccessClaims, IdClaims, RefreshClaims, OffersOffline, FromCode, Rotated;
  }

  lemma ConsumeKeepsRun(c: Config, s: State, req: nat, code: string, uri: string, verifier: string, token: Token,
      parsedAt: int)
    requires s.run.Some?
    ensures SameRun(s, Redeem(c, s, req, code, uri, verifier)) && SameRun(s, Refresh(c, s, req, token, parsedAt))
  {
    hide ConsumeCode, ConsumeRefresh, ValidatePkce;
  }

  /** Only Start changes the key, and to a new one. */
  lemma StepKey(c: Config, s: State, step: Step)
    requires Enabled(s, step)
    ensures var t := Apply(c, s, step);
            s.urls <= t.urls && (t.run.Some? ==> t.run.value.key == if s.run.Some? then s.run.value.key else |s.urls|)
  {
    hide FreshJti, Decide, Authenticate, Redeem, Refresh, CodeTokens, RefreshTokens, AccessClaims;
    match step {
      case PresentCode(req, _, code, uri, verifier) =>
        ConsumeKeepsRun(c, s, req, code, uri, verifier, Token(false, 0, NO_CLAIMS), 0);
      case PresentRefresh(req, _, token, parsedAt) => ConsumeKeepsRun(c, s, req, "", "", "", token, parsedAt);
      case FinishCode(req, a, r, fault) =>
        var f := s.flights[req];
        TokensKeepRun(c, Land(s, req), f.grant, f.code, "", FromCode(c, f.code, 0), a, r, fault);
      case FinishRefresh(req, a, r, fault) =>
        var f := s.flights[req];
        var none := CodeRecord("", "", "", "", "", "", "", "", 0, 0);
        TokensKeepRun(c, Land(s, req), f.grant, none, f.jti, f.refresh, a, r, fault);
      case _ =>
    }
  }

  lemma {:induction false} RunKey(c: Config, s: State, steps: seq<Step>, t: State, n: nat)
    requires Runs(c, s, steps, t) && n <= |s.urls| && (s.run.Some? ==> s.run.value.key >= n)
    ensures t.run.Some? ==> t.run.value.key >= n
    decreases |steps|
  {
    if steps != [] {
      StepKey(c, s, steps[0]);
      hide Enabled, Apply;
      RunKey(c, Apply(c, s, steps[0]), steps[1..], t, n);
    }
  }

  /** Once stopped, no code issued so far is ever accepted again. */
  lemma StopRevokesCodes(c: Config, s: State, steps: seq<Step>, t: State, code: string, uri: string)
    requires Reachable(c, s) && s.run.None? && Runs(c, s, steps, t) && t.run.Some? && code in s.grants
    ensures !ConsumeCode(t.run.value.codes, code, uri, t.now).1.CodeOk?
  {
    Outlived(c, s, steps, t);
    hide Inv, Reachable, Runs;
    assert code !in t.run.value.codes;
  }

  /** Nor is any token, minted or forged, that names a refresh record of before. */
  lemma StopRevokesRefreshes(c: Config, s: State, steps: seq<Step>, t: State, token: Token, parsedAt: int)
    requires Reachable(c, s) && s.run.None? && Runs(c, s, steps, t) && t.run.Some?
    requires token.claims.jti.Some? && token.claims.jti.value in s.tickets
    ensures !Consume(t, token, parsedAt).RefreshOk?
  {
    Outlived(c, s, steps, t);
    hide Inv, Reachable, Runs, Parses;
    assert token.claims.jti.value !in t.run.value.refreshes;
  }

  /** A later run's stores hold nothing of before. */
  lemma Outlived(c: Config, s: State, steps: seq<Step>, t: State)
    requires Reachable(c, s) && s.run.None? && Runs(c, s, steps, t) && t.run.Some?
    ensures forall code :: code in s.grants ==> code !in t.run.value.codes
    ensures forall j :: j in s.tickets ==> j !in t.run.value.refreshes
  {
    ReachableInv(c, s);
    RunKeeps(c, s, steps, t);
    RunKey(c, s, steps, t, |s.urls|);
    hide GoodMints, NoForks, Separate, SpentOnce, GoodFlights, Linear, Reachable, Runs, GrantOk, TicketOk;
    OldKeys(c, s);
    hide GoodGrants, GoodTickets;
  }
}
