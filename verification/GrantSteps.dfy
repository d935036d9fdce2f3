/** Every step of the grant machine keeps the invariant and only adds to the history. */
module GrantSteps {
  import opened OidcSpec
  import opened GrantProtocol
  import opened GrantInvariant
  import opened GrantTokens

  // ---------- Codes ----------

  function WithCodes(s: State, codes: map<string, CodeRecord>): State
    requires s.run.Some?
  {
    s.(run := Some(s.run.value.(codes := codes)))
  }

  lemma ExpireKeepsCodes(codes: map<string, CodeRecord>, key: nat, grants: map<string, Issued>, redeemed: seq<string>,
      now: int, code: string)
    requires GoodCodes(codes, key, grants, redeemed, now) && code in codes && now > codes[code].expiresAt
    ensures GoodCodes(codes - {code}, key, grants, redeemed, now)
  {
  }

  lemma ExpireKeepsPresent(c: Config, s: State, code: string)
    requires Present(c, s) && s.run.Some? && code in s.run.value.codes && s.now > s.run.value.codes[code].expiresAt
    ensures Present(c, WithCodes(s, s.run.value.codes - {code}))
  {
    var t := WithCodes(s, s.run.value.codes - {code});
    SameHistoryGrows(s, t);
    hide FlightOk, GoodRefreshes, GoodCodes, Grows;
    FewerHolders(s, t);
    hide Linear, HeldIn;
    ExpireKeepsCodes(s.run.value.codes, s.run.value.key, s.grants, s.redeemed, s.now, code);
    FlightsStay(c, s, t, s.run.value.key);
  }

  lemma ExpireCode(c: Config, s: State, code: string)
    requires Inv(c, s) && s.run.Some? && code in s.run.value.codes && s.now > s.run.value.codes[code].expiresAt
    ensures var t := WithCodes(s, s.run.value.codes - {code}); Inv(c, t) && Grows(s, t)
  {
    hide Past, Present, Grows;
    var t := WithCodes(s, s.run.value.codes - {code});
    SameHistoryGrows(s, t);
    PastIsHistory(c, s, t);
    ExpireKeepsPresent(c, s, code);
  }

  function Burnt(s: State, code: string, verifier: string): State
    requires s.run.Some?
  {
    WithCodes(s, s.run.value.codes - {code}).(redeemed := s.redeemed + [code],
        verifiers := s.verifiers[code := verifier])
  }

  lemma BurnGrows(c: Config, s: State, code: string, verifier: string)
    requires Inv(c, s) && s.run.Some? && code in s.run.value.codes
    ensures Grows(s, Burnt(s, code, verifier))
  {
    hide Past, Linear, GoodFlights, GoodRefreshes;
  }

  lemma BurnSpends(c: Config, s: State, code: string, verifier: string)
    requires Inv(c, s) && s.run.Some? && code in s.run.value.codes
    ensures var t := Burnt(s, code, verifier); SpentOnce(t.redeemed, t.grants, t.rotated, t.tickets)
  {
    hide GoodGrants, GoodTickets, GoodMints, NoForks, Separate, Linear, GoodFlights, GoodRefreshes;
  }

  lemma BurnKeepsPast(c: Config, s: State, code: string, verifier: string)
    requires Inv(c, s) && s.run.Some? && code in s.run.value.codes
    ensures Past(c, Burnt(s, code, verifier))
  {
    BurnGrows(c, s, code, verifier);
    BurnSpends(c, s, code, verifier);
    hide Grows, Present, GrantOk, TicketOk, MintOk, NoForks, Separate, SpentOnce;
    PastGrows(c, s, Burnt(s, code, verifier));
  }

  lemma BurnKeepsCodes(codes: map<string, CodeRecord>, key: nat, grants: map<string, Issued>, redeemed: seq<string>,
      now: int, code: string)
    requires GoodCodes(codes, key, grants, redeemed, now) && code in codes
    ensures GoodCodes(codes - {code}, key, grants, redeemed + [code], now)
  {
    assert (redeemed + [code])[|redeemed|] == code;
  }

  lemma BurnIsLinear(s: State, code: string, verifier: string)
    requires Linear(s) && s.run.Some?
    ensures Linear(Burnt(s, code, verifier))
  {
    FewerHolders(s, Burnt(s, code, verifier));
  }

  lemma BurnKeepsPresent(c: Config, s: State, code: string, verifier: string)
    requires Present(c, s) && s.run.Some? && code in s.run.value.codes && Grows(s, Burnt(s, code, verifier))
    ensures Present(c, Burnt(s, code, verifier))
  {
    var t := Burnt(s, code, verifier);
    assert t.run == Some(s.run.value.(codes := s.run.value.codes - {code})) && t.flights == s.flights;
    hide FlightOk, GoodRefreshes, GoodCodes, Grows, Linear, HeldIn;
    BurnIsLinear(s, code, verifier);
    BurnKeepsCodes(s.run.value.codes, s.run.value.key, s.grants, s.redeemed, s.now, code);
    FlightsStay(c, s, t, s.run.value.key);
  }

  /** A burnt code bought nothing before. */
  lemma BurntIsUnspent(c: Config, s: State, code: string, j: string)
    requires GoodTickets(c, s) && code !in s.redeemed && j in s.tickets
    ensures s.tickets[j].payment != ByCode(code)
  {
    assert TicketOk(c, s, j);
    hide Cleared, Faithful;
  }

  lemma BurntIsPaid(c: Config, s: State, code: string, verifier: string)
    requires GoodTickets(c, s) && s.run.Some?
    requires GoodCodes(s.run.value.codes, s.run.value.key, s.grants, s.redeemed, s.now) && code in s.run.value.codes
    requires var rec := s.run.value.codes[code];
             rec.codeChallenge != "" ==> ValidatePkce(c, verifier, rec.codeChallenge) == PkceOk
    ensures FlightOk(c, Burnt(s, code, verifier), s.run.value.key, CodeFlight(code, s.run.value.codes[code]))
  {
    var t := Burnt(s, code, verifier);
    hide ValidatePkce, GoodTickets;
    assert t.redeemed[|s.redeemed|] == code;
    forall j | j in t.tickets ensures t.tickets[j].payment != ByCode(code) {
      BurntIsUnspent(c, s, code, j);
    }
  }

  lemma TakeOffKeepsFlights(c: Config, s: State, t: State, req: nat, f: Flight, key: nat)
    requires GoodFlights(c, s, key) && FlightOk(c, s, key, f) && t == s.(flights := s.flights[req := f])
    ensures GoodFlights(c, t, key)
  {
    SameHistoryGrows(s, t);
    forall other | other in t.flights ensures FlightOk(c, t, key, t.flights[other]) {
      hide FlightOk, Grows;
      FlightStays(c, s, t, key, t.flights[other]) by { assert FlightOk(c, s, key, t.flights[other]); }
    }
  }

  lemma TakeOffIsLinear(s: State, req: nat, f: Flight)
    requires Linear(s) && req !in s.flights && (forall h :: HeldIn(s, h) != Some(f.grant))
    ensures Linear(s.(flights := s.flights[req := f]))
  {
    OneHolder(s, s.(flights := s.flights[req := f]), TheFlight(req));
  }

  /** A new flight for a grant nothing else stands for. */
  lemma TakeOff(c: Config, s: State, req: nat, f: Flight)
    requires Inv(c, s) && s.run.Some? && req !in s.flights && FlightOk(c, s, s.run.value.key, f)
    requires forall h :: HeldIn(s, h) != Some(f.grant)
    ensures Inv(c, s.(flights := s.flights[req := f])) && Grows(s, s.(flights := s.flights[req := f]))
  {
    hide Past, Grows, FlightOk, GoodRefreshes, GoodCodes, GoodFlights;
    var t := s.(flights := s.flights[req := f]);
    TakeOffKeepsFlights(c, s, t, req, f, s.run.value.key);
    PastIsHistory(c, s, t);
    SameHistoryGrows(s, t);
    TakeOffIsLinear(s, req, f);
    hide Linear, HeldIn;
  }

  lemma BurntHasNoHolder(s: State, code: string, verifier: string, h: Holder)
    requires Linear(s) && s.run.Some? && code in s.grants && code !in s.redeemed
    ensures HeldIn(Burnt(s, code, verifier), h) != Some(code)
  {
    var t := Burnt(s, code, verifier);
    assert HeldIn(s, TheCode(code)) == Some(code);
    assert HeldIn(t, h) == None || HeldIn(t, h) == HeldIn(s, h);
  }

  lemma RedeemKeeps(c: Config, s: State, req: nat, code: string, uri: string, verifier: string)
    requires Inv(c, s) && s.run.Some? && req !in s.flights
    ensures var t := Redeem(c, s, req, code, uri, verifier); Inv(c, t) && Grows(s, t)
  {
    var codes := s.run.value.codes;
    GrowsReflexive(s);
    if code !in codes {
      assert Redeem(c, s, req, code, uri, verifier) == s;
    } else if s.now > codes[code].expiresAt {
      ExpireCode(c, s, code);
    } else if codes[code].redirectURI != uri {
      assert Redeem(c, s, req, code, uri, verifier) == s;
    } else {
      AcceptCode(c, s, req, code, verifier);
    }
  }

  lemma AcceptCode(c: Config, s: State, req: nat, code: string, verifier: string)
    requires Inv(c, s) && s.run.Some? && req !in s.flights && code in s.run.value.codes
    ensures var t := Burnt(s, code, verifier);
            var f := CodeFlight(code, s.run.value.codes[code]);
            && Inv(c, t) && Grows(s, t)
            && (f.code.codeChallenge == "" || ValidatePkce(c, verifier, f.code.codeChallenge) == PkceOk ==>
                  Inv(c, t.(flights := s.flights[req := f])) && Grows(s, t.(flights := s.flights[req := f])))
  {
    var t, f := Burnt(s, code, verifier), CodeFlight(code, s.run.value.codes[code]);
    BurnGrows(c, s, code, verifier);
    BurnKeepsPast(c, s, code, verifier);
    BurnKeepsPresent(c, s, code, verifier);
    if f.code.codeChallenge == "" || ValidatePkce(c, verifier, f.code.codeChallenge) == PkceOk {
      BurntIsPaid(c, s, code, verifier);
      forall h ensures HeldIn(t, h) != Some(code) { BurntHasNoHolder(s, code, verifier, h); }
      hide Past, Present, Grows, FlightOk;
      TakeOff(c, t, req, f);
      GrowsTransitive(s, t, t.(flights := t.flights[req := f]));
    }
  }

  // ---------- Refresh tokens ----------

  function WithRefreshes(s: State, refreshes: map<string, RefreshRecord>): State
    requires s.run.Some?
  {
    s.(run := Some(s.run.value.(refreshes := refreshes)))
  }

  lemma ExpireKeepsRefreshes(refreshes: map<string, RefreshRecord>, key: nat, tickets: map<string, Ticket>,
      rotated: seq<string>, now: int, jti: string)
    requires GoodRefreshes(refreshes, key, tickets, rotated, now) && jti in refreshes && now > refreshes[jti].expires
    ensures GoodRefreshes(refreshes - {jti}, key, tickets, rotated, now)
  {
  }

  lemma ExpireRefreshKeepsPresent(c: Config, s: State, jti: string)
    requires Present(c, s) && s.run.Some? && jti in s.run.value.refreshes && s.now > s.run.value.refreshes[jti].expires
    ensures Present(c, WithRefreshes(s, s.run.value.refreshes - {jti}))
  {
    var t := WithRefreshes(s, s.run.value.refreshes - {jti});
    SameHistoryGrows(s, t);
    hide FlightOk, GoodRefreshes, GoodCodes, Grows;
    FewerHolders(s, t);
    hide Linear, HeldIn;
    ExpireKeepsRefreshes(s.run.value.refreshes, s.run.value.key, s.tickets, s.rotated, s.now, jti);
    FlightsStay(c, s, t, s.run.value.key);
  }

  lemma ExpireRefresh(c: Config, s: State, jti: string)
    requires Inv(c, s) && s.run.Some? && jti in s.run.value.refreshes && s.now > s.run.value.refreshes[jti].expires
    ensures var t := WithRefreshes(s, s.run.value.refreshes - {jti}); Inv(c, t) && Grows(s, t)
  {
    hide Past, Present, Grows;
    var t := WithRefreshes(s, s.run.value.refreshes - {jti});
    SameHistoryGrows(s, t);
    PastIsHistory(c, s, t);
    ExpireRefreshKeepsPresent(c, s, jti);
  }

  function Spent(s: State, jti: string): State
    requires s.run.Some?
  {
    WithRefreshes(s, s.run.value.refreshes - {jti}).(rotated := s.rotated + [jti])
  }

  lemma SpendGrows(s: State, jti: string)
    requires s.run.Some?
    ensures Grows(s, Spent(s, jti))
  {
  }

  lemma SpendSpends(c: Config, s: State, jti: string)
    requires Inv(c, s) && s.run.Some? && jti in s.run.value.refreshes
    ensures SpentOnce(s.redeemed, s.grants, s.rotated + [jti], s.tickets)
  {
    hide GoodGrants, GoodTickets, GoodMints, NoForks, Separate, Linear, GoodFlights, GoodCodes;
  }

  lemma SpendKeepsPast(c: Config, s: State, jti: string)
    requires Inv(c, s) && s.run.Some? && jti in s.run.value.refreshes
    ensures Past(c, Spent(s, jti))
  {
    SpendGrows(s, jti);
    SpendSpends(c, s, jti);
    hide Grows, Present, GrantOk, TicketOk, MintOk, NoForks, Separate, SpentOnce;
    PastGrows(c, s, Spent(s, jti));
  }

  lemma SpendKeepsRefreshes(refreshes: map<string, RefreshRecord>, key: nat, tickets: map<string, Ticket>,
      rotated: seq<string>, now: int, jti: string)
    requires GoodRefreshes(refreshes, key, tickets, rotated, now) && jti in refreshes
    ensures GoodRefreshes(refreshes - {jti}, key, tickets, rotated + [jti], now)
  {
    assert (rotated + [jti])[|rotated|] == jti;
  }

  lemma SpendKeepsPresent(c: Config, s: State, jti: string)
    requires Present(c, s) && s.run.Some? && jti in s.run.value.refreshes
    ensures Present(c, Spent(s, jti))
  {
    var t := Spent(s, jti);
    SpendGrows(s, jti);
    hide FlightOk, GoodRefreshes, GoodCodes, Grows;
    FewerHolders(s, t);
    hide Linear, HeldIn;
    SpendKeepsRefreshes(s.run.value.refreshes, s.run.value.key, s.tickets, s.rotated, s.now, jti);
    FlightsStay(c, s, t, s.run.value.key);
  }

  /** A refresh token still in the store bought nothing before. */
  lemma SpentIsUnspent(c: Config, s: State, jti: string, j: string)
    requires GoodTickets(c, s) && jti !in s.rotated && j in s.tickets
    ensures s.tickets[j].payment != ByRefresh(jti)
  {
    assert TicketOk(c, s, j);
    hide Cleared, Faithful;
  }

  lemma GrantedClient(c: Config, s: State, g: string)
    requires g in s.grants && GrantOk(c, s, g)
    ensures s.grants[g].rec.clientID == c.clientID
  {
  }

  /** A stored refresh token's client is the issuer's, so the client check never fails. */
  lemma LiveRefresh(c: Config, s: State, jti: string)
    requires GoodGrants(c, s) && GoodTickets(c, s)
    requires s.run.Some? && GoodRefreshes(s.run.value.refreshes, s.run.value.key, s.tickets, s.rotated, s.now)
    requires jti in s.run.value.refreshes
    ensures jti in s.tickets && s.tickets[jti].rec == s.run.value.refreshes[jti]
    ensures s.tickets[jti].key == s.run.value.key
    ensures jti !in s.rotated && TicketOk(c, s, jti) && GrantOk(c, s, s.tickets[jti].grant)
    ensures s.run.value.refreshes[jti].clientID == c.clientID
  {
    hide Paid, Proved, OffersOffline, GrantOk;
    assert TicketOk(c, s, jti);
    assert GrantOk(c, s, s.tickets[jti].grant);
    GrantedClient(c, s, s.tickets[jti].grant);
  }

  lemma SpentIsPaid(c: Config, s: State, jti: string)
    requires Inv(c, s) && s.run.Some? && jti in s.run.value.refreshes
    ensures jti in s.tickets
    ensures FlightOk(c, Spent(s, jti), s.run.value.key,
        RefreshFlight(s.tickets[jti].grant, jti, s.run.value.refreshes[jti]))
  {
    LiveRefresh(c, s, jti);
    forall j | j in s.tickets ensures s.tickets[j].payment != ByRefresh(jti) {
      SpentIsUnspent(c, s, jti, j);
    }
    hide Past, Present, GrantOk;
    SpentBuys(c, s, jti);
  }

  lemma SpentBuys(c: Config, s: State, jti: string)
    requires s.run.Some? && jti in s.tickets && TicketOk(c, s, jti) && Unbought(s.tickets, ByRefresh(jti))
    ensures FlightOk(c, Spent(s, jti), s.tickets[jti].key, RefreshFlight(s.tickets[jti].grant, jti, s.tickets[jti].rec))
  {
    var t := Spent(s, jti);
    SpendGrows(s, jti);
    ClearedStays(c, s, t, s.tickets[jti].grant);
    assert t.rotated[|s.rotated|] == jti;
    hide Cleared, Grows, OffersOffline;
  }

  lemma SpentHasNoHolder(s: State, jti: string, h: Holder)
    requires Linear(s) && s.run.Some? && jti in s.tickets && jti !in s.rotated
    ensures HeldIn(Spent(s, jti), h) != Some(s.tickets[jti].grant)
  {
    var t := Spent(s, jti);
    assert HeldIn(s, TheRefresh(jti)) == Some(s.tickets[jti].grant);
    assert HeldIn(t, h) == None || HeldIn(t, h) == HeldIn(s, h);
  }

  lemma AcceptRefresh(c: Config, s: State, req: nat, jti: string)
    requires Inv(c, s) && s.run.Some? && req !in s.flights && jti in s.run.value.refreshes
    ensures jti in s.tickets
    ensures var f := RefreshFlight(s.tickets[jti].grant, jti, s.run.value.refreshes[jti]);
            var t := Spent(s, jti).(flights := s.flights[req := f]);
            Inv(c, t) && Grows(s, t)
  {
    SpentIsPaid(c, s, jti);
    var t, f := Spent(s, jti), RefreshFlight(s.tickets[jti].grant, jti, s.run.value.refreshes[jti]);
    SpendGrows(s, jti);
    SpendKeepsPast(c, s, jti);
    SpendKeepsPresent(c, s, jti);
    forall h ensures HeldIn(t, h) != Some(f.grant) { SpentHasNoHolder(s, jti, h); }
    hide Past, Present, Grows, FlightOk;
    TakeOff(c, t, req, f);
    GrowsTransitive(s, t, t.(flights := t.flights[req := f]));
  }

  lemma AcceptedIsSpent(c: Config, s: State, req: nat, token: Token, parsedAt: int)
    requires s.run.Some?
    requires ConsumeRefresh(s.run.value.refreshes, s.run.value.key, s.run.value.url, token, parsedAt,
        s.now).1.RefreshOk?
    ensures token.claims.jti.Some?
    ensures var jti := token.claims.jti.value;
            && jti in s.run.value.refreshes
            && (jti in s.tickets && s.run.value.refreshes[jti].clientID == c.clientID ==>
                  Refresh(c, s, req, token, parsedAt)
                  == var f := RefreshFlight(s.tickets[jti].grant, jti, s.run.value.refreshes[jti]);
                     Spent(s, jti).(flights := s.flights[req := f]))
  {
    hide Parses;
  }

  lemma RefreshAccepted(c: Config, s: State, req: nat, token: Token, parsedAt: int)
    requires Inv(c, s) && s.run.Some? && req !in s.flights
    requires ConsumeRefresh(s.run.value.refreshes, s.run.value.key, s.run.value.url, token, parsedAt,
        s.now).1.RefreshOk?
    ensures var t := Refresh(c, s, req, token, parsedAt); Inv(c, t) && Grows(s, t)
  {
    hide Grows, Refresh, ConsumeRefresh, TicketOk, GrantOk, Spent, Linear, GoodFlights, GoodCodes, GoodRefreshes,
        GoodGrants, GoodTickets, GoodMints;
    AcceptedIsSpent(c, s, req, token, parsedAt);
    LiveRefresh(c, s, token.claims.jti.value);
    AcceptRefresh(c, s, req, token.claims.jti.value);
  }

  /** Short of acceptance, a refresh changes the store only by dropping an expired record. */
  lemma RefreshRefused(c: Config, s: State, req: nat, token: Token, parsedAt: int)
    requires s.run.Some?
    ensures var r := s.run.value;
            var outcome := ConsumeRefresh(r.refreshes, r.key, r.url, token, parsedAt, s.now).1;
            outcome.RefreshOk? || Refresh(c, s, req, token, parsedAt) == s
            || (token.claims.jti.Some? && var jti := token.claims.jti.value;
                jti in r.refreshes && s.now > r.refreshes[jti].expires
                && Refresh(c, s, req, token, parsedAt) == WithRefreshes(s, r.refreshes - {jti}))
  {
    hide Parses;
  }

  lemma RefreshKeeps(c: Config, s: State, req: nat, token: Token, parsedAt: int)
    requires Inv(c, s) && s.run.Some? && req !in s.flights
    ensures var t := Refresh(c, s, req, token, parsedAt); Inv(c, t) && Grows(s, t)
  {
    hide Inv, Grows, Refresh, ConsumeRefresh;
    GrowsReflexive(s);
    RefreshRefused(c, s, req, token, parsedAt);
    if ConsumeRefresh(s.run.value.refreshes, s.run.value.key, s.run.value.url, token, parsedAt, s.now).1.RefreshOk? {
      RefreshAccepted(c, s, req, token, parsedAt);
    } else if Refresh(c, s, req, token, parsedAt) != s {
      ExpireRefresh(c, s, token.claims.jti.value);
    }
  }

  // ---------- /authorize, Start, Stop, time ----------

  /** The state with one more code, for one more grant. */
  function Granted(s: State, code: string, i: Issued): State
    requires s.run.Some?
  {
    WithCodes(s, s.run.value.codes[code := i.rec]).(grants := s.grants[code := i])
  }

  lemma AuthorizeGrows(s: State, code: string, i: Issued, run: Run)
    requires code !in s.grants
    ensures Grows(s, s.(run := Some(run), grants := s.grants[code := i]))
  {
  }

  lemma AuthorizeKeepsPast(c: Config, s: State, t: State, code: string, i: Issued)
    requires Past(c, s) && code !in s.grants && t == s.(run := t.run, grants := s.grants[code := i]) && Grows(s, t)
    requires GrantOk(c, t, code)
    ensures Past(c, t)
  {
    assert SpentOnce(t.redeemed, t.grants, t.rotated, t.tickets) by {
      hide GoodGrants, GoodTickets, GoodMints, NoForks, Separate, Grows;
    }
    hide Grows, GrantOk, TicketOk, MintOk, NoForks, Separate, SpentOnce;
    PastGrows(c, s, t);
  }

  /** Every holder stands for a grant that was issued. */
  lemma HoldersAreGrants(c: Config, s: State, h: Holder)
    requires Inv(c, s) && HeldIn(s, h).Some?
    ensures HeldIn(s, h).value in s.grants
  {
    hide GoodGrants, GoodMints, NoForks, Separate, Linear, Faithful, Proved, Unbought, Paid;
    if h.TheFlight? {
      assert s.run.Some?;
      assert FlightOk(c, s, s.run.value.key, s.flights[h.req]);
    } else if h.TheRefresh? {
      assert TicketOk(c, s, h.jti);
    }
  }

  lemma AuthorizeHolder(c: Config, s: State, t: State, code: string, i: Issued, h: Holder)
    requires Inv(c, s) && s.run.Some? && code !in s.grants && h != TheCode(code)
    requires t == Granted(s, code, i)
    ensures HeldIn(t, h) == HeldIn(s, h) && HeldIn(t, h) != Some(code)
  {
    if HeldIn(s, h).Some? { HoldersAreGrants(c, s, h); }
    hide Inv;
  }

  lemma AuthorizeIsLinear(c: Config, s: State, t: State, code: string, i: Issued)
    requires Inv(c, s) && s.run.Some? && code !in s.grants
    requires t == Granted(s, code, i)
    ensures Linear(t)
  {
    assert Linear(s);
    hide Inv, Linear;
    forall h | h != TheCode(code) ensures HeldIn(t, h) == HeldIn(s, h) && HeldIn(t, h) != Some(code) {
      AuthorizeHolder(c, s, t, code, i, h);
    }
    OneHolder(s, t, TheCode(code));
  }

  lemma AuthorizeKeepsCodes(codes: map<string, CodeRecord>, key: nat, grants: map<string, Issued>,
      redeemed: seq<string>, now: int, code: string, i: Issued)
    requires GoodCodes(codes, key, grants, redeemed, now) && code !in grants && code !in redeemed && i.key == key
    ensures GoodCodes(codes[code := i.rec], key, grants[code := i], redeemed, now)
  {
  }

  lemma AuthorizeKeepsFlights(c: Config, s: State, t: State, code: string, i: Issued)
    requires GoodFlights(c, s, i.key) && code !in s.grants && t == s.(run := t.run, grants := s.grants[code := i])
    requires t.run.Some?
    ensures GoodFlights(c, t, i.key)
  {
    AuthorizeGrows(s, code, i, t.run.value);
    hide FlightOk, Grows;
    FlightsStay(c, s, t, i.key);
  }

  lemma AuthorizeKeepsPresent(c: Config, s: State, t: State, code: string, i: Issued)
    requires Present(c, s) && s.run.Some? && code !in s.grants && code !in s.redeemed && i.key == s.run.value.key
    requires Linear(t)
    requires t == Granted(s, code, i)
    ensures Present(c, t)
  {
    hide Linear, GoodFlights, GoodRefreshes, GoodCodes;
    AuthorizeKeepsCodes(s.run.value.codes, s.run.value.key, s.grants, s.redeemed, s.now, code, i);
    AuthorizeKeepsFlights(c, s, t, code, i);
  }

  lemma NewCodeIsUnspent(c: Config, s: State, code: string)
    requires Past(c, s) && code !in s.grants
    ensures code !in s.redeemed
  {
    hide GoodGrants, GoodTickets, GoodMints, NoForks, Separate, NoRepeats;
  }

  lemma AuthorizeKeeps(c: Config, s: State, q: AuthRequest, code: string)
    requires Inv(c, s) && Enabled(s, Authorize(q, code))
    ensures var t := Apply(c, s, Authorize(q, code)); Inv(c, t) && Grows(s, t)
  {
    var t := Apply(c, s, Authorize(q, code));
    GrowsReflexive(s);
    var d := Decide(c, q, s.now);
    if d.Grant? {
      var i := Issued(q, s.now, d.rec, s.run.value.key);
      assert GrantOk(c, t, code) by { hide Past, Linear, GoodFlights, GoodCodes, GoodRefreshes; }
      AuthorizeGrows(s, code, i, t.run.value);
      hide Decide, Past, Present, Grows, GrantOk, Linear;
      NewCodeIsUnspent(c, s, code);
      AuthorizeIsLinear(c, s, t, code, i);
      AuthorizeKeepsPast(c, s, t, code, i);
      AuthorizeKeepsPresent(c, s, t, code, i);
    }
  }

  /** Whatever was issued before carries an older key. */
  lemma OldKeys(c: Config, s: State)
    requires GoodGrants(c, s) && GoodTickets(c, s)
    ensures forall g :: g in s.grants ==> s.grants[g].key < |s.urls|
    ensures forall j :: j in s.tickets ==> s.tickets[j].key < |s.urls|
  {
    assert forall g :: g in s.grants ==> GrantOk(c, s, g);
    assert forall j :: j in s.tickets ==> TicketOk(c, s, j);
    hide Decide, Faithful, Paid, Proved;
  }

  lemma StartKeepsPast(c: Config, s: State, t: State, url: string)
    requires Past(c, s) && t == s.(run := t.run, urls := s.urls + [url])
    ensures Past(c, t) && Grows(s, t)
  {
    assert Grows(s, t);
    hide Grows, GrantOk, TicketOk, MintOk, NoForks, Separate, SpentOnce;
    assert forall g :: g in s.grants ==> GrantOk(c, s, g);
    PastGrows(c, s, t);
  }

  lemma StartKeepsPresent(c: Config, s: State, t: State, url: string)
    requires Linear(s) && s.flights == map[]
    requires t == s.(run := Some(Run(|s.urls|, url, map[], map[])), urls := s.urls + [url])
    requires forall g :: g in s.grants ==> s.grants[g].key < |s.urls|
    requires forall j :: j in s.tickets ==> s.tickets[j].key < |s.urls|
    ensures Present(c, t)
  {
    FewerHolders(s, t);
    hide Linear, HeldIn;
  }

  lemma StartKeeps(c: Config, s: State, url: string)
    requires Inv(c, s) && s.run.None?
    ensures var t := Apply(c, s, StartServer(url)); Inv(c, t) && Grows(s, t)
  {
    var t := s.(run := Some(Run(|s.urls|, url, map[], map[])), urls := s.urls + [url]);
    assert Apply(c, s, StartServer(url)) == t;
    hide Apply, Grows, Linear, GoodGrants, GoodTickets;
    OldKeys(c, s);
    StartKeepsPast(c, s, t, url);
    StartKeepsPresent(c, s, t, url);
    hide Past, Present;
  }

  lemma StopKeeps(c: Config, s: State)
    requires Inv(c, s) && s.flights == map[]
    ensures var t := Apply(c, s, StopServer); Inv(c, t) && Grows(s, t)
  {
    var t := s.(run := None);
    assert Apply(c, s, StopServer) == t;
    FewerHolders(s, t);
    hide Apply, Past, Grows, Linear, GoodCodes, GoodRefreshes, GoodFlights;
    PastIsHistory(c, s, t);
    SameHistoryGrows(s, t);
  }

  lemma LaterStores(run: Run, s: State, t: State)
    requires GoodCodes(run.codes, run.key, s.grants, s.redeemed, s.now)
    requires GoodRefreshes(run.refreshes, run.key, s.tickets, s.rotated, s.now)
    requires s.now <= t.now && t == s.(now := t.now)
    ensures GoodCodes(run.codes, run.key, t.grants, t.redeemed, t.now)
    ensures GoodRefreshes(run.refreshes, run.key, t.tickets, t.rotated, t.now)
  {
  }

  lemma TickKeepsPresent(c: Config, s: State, t: State)
    requires Present(c, s) && t == s.(now := t.now) && s.now <= t.now
    ensures Present(c, t)
  {
    hide FlightOk, GoodCodes, GoodRefreshes;
    FewerHolders(s, t);
    SameHistoryGrows(s, t);
    hide Linear, HeldIn, Grows;
    if s.run.Some? {
      LaterStores(s.run.value, s, t);
      FlightsStay(c, s, t, s.run.value.key);
    }
  }

  lemma TickKeeps(c: Config, s: State, d: nat)
    requires Inv(c, s)
    ensures var t := Apply(c, s, Tick(d)); Inv(c, t) && Grows(s, t)
  {
    var t := s.(now := s.now + d);
    assert Apply(c, s, Tick(d)) == t;
    hide Past, Present, Grows, Apply;
    PastIsHistory(c, s, t);
    SameHistoryGrows(s, t);
    TickKeepsPresent(c, s, t);
  }

  // ---------- All steps, all runs ----------

  lemma StepKeeps(c: Config, s: State, step: Step)
    requires Inv(c, s) && Enabled(s, step)
    ensures Inv(c, Apply(c, s, step)) && Grows(s, Apply(c, s, step))
  {
    GrowsReflexive(s);
    match step {
      case StartServer(url) => StartKeeps(c, s, url);
      case StopServer => StopKeeps(c, s);
      case Tick(d) => TickKeeps(c, s, d);
      case Authorize(q, code) => AuthorizeKeeps(c, s, q, code);
      case PresentCode(req, creds, code, uri, verifier) =>
        hide Inv, Grows, Authenticate;
        RedeemKeeps(c, s, req, code, uri, verifier);
      case FinishCode(req, a, r, fault) => FinishCodeKeeps(c, s, req, a, r, fault);
      case PresentRefresh(req, creds, token, parsedAt) =>
        hide Inv, Grows, Authenticate;
        RefreshKeeps(c, s, req, token, parsedAt);
      case FinishRefresh(req, a, r, fault) => FinishRefreshKeeps(c, s, req, a, r, fault);
      case ClientCredentials(creds, audience, scope, jti) =>
        hide Inv, Grows, Authenticate;
        if audience in c.allowedAudiences {
          SignClientKeeps(c, s, audience, scope, jti);
        }
    }
  }

  lemma FinishCodeKeeps(c: Config, s: State, req: nat, a: string, r: string, fault: Fault)
    requires Inv(c, s) && Enabled(s, FinishCode(req, a, r, fault))
    ensures var t := Apply(c, s, FinishCode(req, a, r, fault)); Inv(c, t) && Grows(s, t)
  {
    var f, t := s.flights[req], Land(s, req);
    assert FlightOk(c, s, s.run.value.key, f);
    assert f.code == s.grants[f.grant].rec;
    LandKeeps(c, s, req);
    LandFrees(c, s, req);
    hide Inv, Grows, Exchanging, CodeTokens;
    CodeTokensKeep(c, t, f.grant, a, r, fault);
    GrowsTransitive(s, t, CodeTokens(c, t, f.grant, f.code, a, r, fault));
  }

  lemma FinishRefreshKeeps(c: Config, s: State, req: nat, a: string, r: string, fault: Fault)
    requires Inv(c, s) && Enabled(s, FinishRefresh(req, a, r, fault))
    ensures var t := Apply(c, s, FinishRefresh(req, a, r, fault)); Inv(c, t) && Grows(s, t)
  {
    var f, t := s.flights[req], Land(s, req);
    assert FlightOk(c, s, s.run.value.key, f);
    assert Faithful(s.grants[f.grant].rec, f.refresh);
    LandKeeps(c, s, req);
    LandFrees(c, s, req);
    hide Inv, Grows, Exchanging, RefreshTokens, Faithful;
    RefreshTokensKeep(c, t, f.grant, f.jti, f.refresh, a, r, fault);
    GrowsTransitive(s, t, RefreshTokens(c, t, f.grant, f.jti, f.refresh, a, r, fault));
  }

  lemma {:induction false} RunKeeps(c: Config, s: State, steps: seq<Step>, t: State)
    requires Inv(c, s) && Runs(c, s, steps, t)
    ensures Inv(c, t) && Grows(s, t)
    decreases |steps|
  {
    GrowsReflexive(s);
    if steps != [] {
      StepKeeps(c, s, steps[0]);
      RunKeeps(c, Apply(c, s, steps[0]), steps[1..], t);
      hide Inv, Grows, Enabled, Apply;
      GrowsTransitive(s, Apply(c, s, steps[0]), t);
    }
  }

  lemma ReachableInv(c: Config, s: State)
    requires Reachable(c, s)
    ensures Inv(c, s)
  {
    var steps :| Runs(c, INITIAL, steps, s);
    assert Inv(c, INITIAL);
    RunKeeps(c, INITIAL, steps, s);
  }
}
