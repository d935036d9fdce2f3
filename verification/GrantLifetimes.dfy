/** When the refresh tokens the endpoint hands out can be used at once. */
module GrantLifetimes {
  import opened OidcSpec
  import opened GrantProtocol
  import opened GrantInvariant
  import opened GrantSteps
  import opened GrantResults

  /** Whatever refresh token the step hands out is accepted if it comes back at the same moment. */
  predicate HandsOutUsable(c: Config, s: State, step: Step)
    requires Enabled(s, step)
  {
    var t := Apply(c, s, step);
    forall i :: |s.minted| <= i < |t.minted| && t.minted[i].kind == RefreshToken ==>
      t.run.Some? && Consume(t, t.minted[i].token, t.now).RefreshOk?
  }

  ghost predicate AllUsable(c: Config) {
    forall s, step :: Reachable(c, s) && Enabled(s, step) ==> HandsOutUsable(c, s, step)
  }

  ghost predicate RotationsUsable(c: Config) {
    forall s, step :: Reachable(c, s) && Enabled(s, step) && step.FinishRefresh? ==> HandsOutUsable(c, s, step)
  }

  /** What validation leaves of a configuration with which anything can be granted. */
  predicate Serves(c: Config) {
    && c.clientID != "" && c.codeTTL > 0 && c.refreshTTL > 0
    && exists i :: 0 <= i < |c.redirectURIs| && c.redirectURIs[i] != ""
  }

  // ---------- A second is enough ----------

  /** A refresh token among the mints of `t` past those of `s` is new, and of this run and moment. */
  predicate NewMint(s: State, t: State, i: nat)
    requires i < |t.minted|
  {
    var m := t.minted[i];
    && t.run.Some? && m.at == t.now && m.token.key == t.run.value.key && t.rotated == s.rotated
    && m.token.claims.jti.Some? && m.token.claims.jti.value !in s.tickets
  }

  lemma NewByCode(c: Config, s: State, g: string, rec: CodeRecord, a: string, r: string, fault: Fault, i: nat)
    requires s.run.Some? && FreshJti(s, r)
    requires var t := CodeTokens(c, s, g, rec, a, r, fault);
             |s.minted| <= i < |t.minted| && t.minted[i].kind == RefreshToken
    ensures NewMint(s, CodeTokens(c, s, g, rec, a, r, fault), i)
  {
    hide OffersOffline, IdClaims, AccessClaims, FromCode;
  }

  lemma NewByRefresh(c: Config, s: State, g: string, j: string, rec: RefreshRecord, a: string, r: string,
      fault: Fault, i: nat)
    requires s.run.Some? && FreshJti(s, r)
    requires var t := RefreshTokens(c, s, g, j, rec, a, r, fault);
             |s.minted| <= i < |t.minted| && t.minted[i].kind == RefreshToken
    ensures NewMint(s, RefreshTokens(c, s, g, j, rec, a, r, fault), i)
  {
    hide AccessClaims, Rotated;
  }

  lemma ConsumeMintsNothing(c: Config, s: State, req: nat, code: string, uri: string, verifier: string, t: Token,
      at: int)
    requires s.run.Some?
    ensures Redeem(c, s, req, code, uri, verifier).minted == s.minted && Refresh(c, s, req, t, at).minted == s.minted
  {
    hide ConsumeCode, ConsumeRefresh, ValidatePkce;
  }

  /** Only the second halves of exchanges hand out refresh tokens. */
  lemma NewRefreshMint(c: Config, s: State, step: Step, i: nat)
    requires Enabled(s, step) && |s.minted| <= i < |Apply(c, s, step).minted|
    requires Apply(c, s, step).minted[i].kind == RefreshToken
    ensures NewMint(s, Apply(c, s, step), i)
  {
    hide Decide, Authenticate, Redeem, Refresh, CodeTokens, RefreshTokens, AccessClaims, NewMint;
    match step {
      case FinishCode(req, a, r, fault) =>
        var f := s.flights[req];
        NewByCode(c, Land(s, req), f.grant, f.code, a, r, fault, i);
        NewFromLanded(s, Apply(c, s, step), req, i);
      case FinishRefresh(req, a, r, fault) =>
        var f := s.flights[req];
        NewByRefresh(c, Land(s, req), f.grant, f.jti, f.refresh, a, r, fault, i);
        NewFromLanded(s, Apply(c, s, step), req, i);
      case PresentCode(req, _, code, uri, verifier) =>
        ConsumeMintsNothing(c, s, req, code, uri, verifier, Token(false, 0, NO_CLAIMS), 0);
      case PresentRefresh(req, _, token, parsedAt) => ConsumeMintsNothing(c, s, req, "", "", "", token, parsedAt);
      case _ =>
    }
  }

  lemma NewFromLanded(s: State, t: State, req: nat, i: nat)
    requires i < |t.minted| && NewMint(Land(s, req), t, i)
    ensures NewMint(s, t, i)
  {}

  lemma NewRefreshUsable(c: Config, s: State, step: Step, i: nat)
    requires Reachable(c, s) && Enabled(s, step) && |s.minted| <= i < |Apply(c, s, step).minted|
    requires Apply(c, s, step).minted[i].kind == RefreshToken && c.refreshTTL >= SECOND
    ensures var t := Apply(c, s, step); t.run.Some? && Consume(t, t.minted[i].token, t.now).RefreshOk?
  {
    var t := Apply(c, s, step);
    var m := t.minted[i];
    NewRefreshMint(c, s, step, i);
    ReachableOn(c, s, step);
    hide Apply, Enabled;
    NeverRotated(c, s, m.token.claims.jti.value);
    RefreshAcceptedExactly(c, t, m, t.now);
    MintIsGood(c, t, m);
    ASecondSuffices(t.now, c.refreshTTL);
    hide Reachable, Consume;
    assert RefreshMintOk(t, m.grant.value, m.token);
  }

  lemma NeverRotated(c: Config, s: State, j: string)
    requires Reachable(c, s) && j !in s.tickets
    ensures j !in s.rotated
  {
    ReachableInv(c, s);
    hide GoodGrants, GoodTickets, GoodMints, NoForks, Separate, Present, Reachable, NoRepeats;
  }

  // ---------- Less is not ----------

  lemma OfflineWord()
    ensures OffersOffline(OFFLINE_ACCESS)
  {
    OfflineExactly(OFFLINE_ACCESS);
    assert OFFLINE_ACCESS[0..0 + |OFFLINE_ACCESS|] == OFFLINE_ACCESS;
    assert StandsAt(OFFLINE_ACCESS, OFFLINE_ACCESS, 0);
  }

  function Wish(c: Config, uri: string): AuthRequest {
    AuthRequest(c.clientID, uri, "code", "", "", "", "", "", OFFLINE_ACCESS, "", "")
  }

  function Wished(c: Config, uri: string, now: int): CodeRecord {
    CodeRecord(c.clientID, uri, OFFLINE_ACCESS, "", "", "", "", c.defaultSubject, now + c.codeTTL, now)
  }

  function Known(c: Config): Credentials {
    Credentials(None, c.clientID, c.clientSecret)
  }

  const LATE := SECOND - 1

  /** A code, issued a nanosecond before a full second. */
  lemma ReachCode(c: Config, uri: string) returns (s: State)
    requires Serves(c) && uri in c.redirectURIs && uri != ""
    ensures Reachable(c, s) && s.run == Some(Run(0, "", map["code" := Wished(c, uri, LATE)], map[]))
    ensures s.now == LATE && s.flights == map[] && s.tickets == map[] && s.accessJtis == {} && s.minted == []
  {
    assert Runs(c, INITIAL, [], INITIAL);
    ReachableOn(c, INITIAL, StartServer(""));
    var up := Apply(c, INITIAL, StartServer(""));
    ReachableOn(c, up, Tick(LATE));
    var late := Apply(c, up, Tick(LATE));
    ReachableOn(c, late, Authorize(Wish(c, uri), "code"));
    assert Decide(c, Wish(c, uri), LATE) == Grant(Wished(c, uri, LATE));
    s := Apply(c, late, Authorize(Wish(c, uri), "code"));
    hide Reachable;
  }

  function Stored(c: Config, now: int): RefreshRecord {
    RefreshRecord(c.defaultSubject, "", OFFLINE_ACCESS, c.clientID, now + c.refreshTTL)
  }

  function Ticketed(c: Config): Token {
    Token(true, 0, RefreshClaims("", Stored(c, LATE), "first", LATE))
  }

  /** It is exchanged at once, for a refresh token. */
  lemma ReachTicket(c: Config, uri: string) returns (s: State)
    requires Serves(c) && uri in c.redirectURIs && uri != ""
    ensures Reachable(c, s) && s.run == Some(Run(0, "", map[], map["first" := Stored(c, LATE)]))
    ensures s.now == LATE && s.flights == map[] && s.accessJtis == {} && s.tickets.Keys == {"first"}
  {
    var before := ReachCode(c, uri);
    var present := PresentCode(0, Known(c), "code", uri, "");
    ReachableOn(c, before, present);
    var flying := Apply(c, before, present);
    assert flying.flights == map[0 := CodeFlight("code", Wished(c, uri, LATE))];
    assert map["code" := Wished(c, uri, LATE)] - {"code"} == map[];
    assert flying.run == Some(Run(0, "", map[], map[]));
    var finish := FinishCode(0, "a", "first", NoFault);
    ReachableOn(c, flying, finish);
    s := Apply(c, flying, finish);
    OfflineWord();
    hide Reachable, OffersOffline, IdClaims, RefreshClaims;
    assert flying.flights - {0} == map[];
  }

  /** The refresh token comes back at once and is accepted; the next is issued at the full second. */
  lemma ReachRotation(c: Config, uri: string) returns (s: State)
    requires Serves(c) && c.refreshTTL < SECOND && uri in c.redirectURIs && uri != ""
    ensures Reachable(c, s) && s.now == SECOND && s.run.Some? && s.accessJtis == {} && s.tickets.Keys == {"first"}
    ensures 0 in s.flights && s.flights[0].RefreshFlight?
  {
    var before := ReachTicket(c, uri);
    var present := PresentRefresh(0, Known(c), Ticketed(c), LATE);
    ReachableOn(c, before, present);
    var flying := Apply(c, before, present);
    ReachableOn(c, flying, Tick(1));
    s := Apply(c, flying, Tick(1));
    assert Unix(LATE + c.refreshTTL) == 1;
    hide Reachable;
  }

  /** The failing input: with a lifetime below a second, a refresh token issued at a full second has
      expired on arrival. */
  lemma RotationCanFail(c: Config) returns (s: State)
    requires Serves(c) && c.refreshTTL < SECOND
    ensures Reachable(c, s) && Enabled(s, FinishRefresh(0, "b", "second", NoFault))
    ensures !HandsOutUsable(c, s, FinishRefresh(0, "b", "second", NoFault))
  {
    var i :| 0 <= i < |c.redirectURIs| && c.redirectURIs[i] != "";
    s := ReachRotation(c, c.redirectURIs[i]);
    var step := FinishRefresh(0, "b", "second", NoFault);
    RotationIsUsable(c, s, 0, "b", "second", NoFault);
    var t := Apply(c, s, step);
    assert Unix(SECOND + c.refreshTTL) == 1;
    assert t.now == SECOND;
    assert !Consume(t, t.minted[|s.minted|].token, t.now).RefreshOk?;
  }

  /** Exactly the lifetimes of a second or more make every refresh token usable on arrival, whatever the
      clock reads; already of rotations this is so. */
  lemma UsableExactly(c: Config)
    requires Serves(c)
    ensures AllUsable(c) <==> c.refreshTTL >= SECOND
    ensures RotationsUsable(c) <==> c.refreshTTL >= SECOND
  {
    if c.refreshTTL >= SECOND {
      forall s, step | Reachable(c, s) && Enabled(s, step) ensures HandsOutUsable(c, s, step) {
        var t := Apply(c, s, step);
        forall i | |s.minted| <= i < |t.minted| && t.minted[i].kind == RefreshToken
          ensures t.run.Some? && Consume(t, t.minted[i].token, t.now).RefreshOk?
        {
          NewRefreshUsable(c, s, step, i);
        }
      }
    } else {
      var s := RotationCanFail(c);
      hide Reachable, Enabled, HandsOutUsable;
      assert !AllUsable(c) && !RotationsUsable(c);
    }
  }
}
