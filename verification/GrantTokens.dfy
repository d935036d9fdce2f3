/** The token part of an exchange keeps the invariant and only adds to the history. */
module GrantTokens {
  import opened OidcSpec
  import opened GrantProtocol
  import opened GrantInvariant

  // ---------- Pieces ----------

  /** An exchange may change hands, or end, or a new grant may start: still one holder each. */
  lemma OneHolder(s: State, t: State, next: Holder)
    requires Linear(s)
    requires forall h :: h != next ==> HeldIn(t, h) == None || HeldIn(t, h) == HeldIn(s, h)
    requires forall h :: h != next ==> HeldIn(t, h) == None || HeldIn(t, h) != HeldIn(t, next)
    ensures Linear(t)
  {
    hide HeldIn;
  }

  lemma FewerHolders(s: State, t: State)
    requires Linear(s)
    requires forall h :: HeldIn(t, h) == None || HeldIn(t, h) == HeldIn(s, h)
    ensures Linear(t)
  {
    hide HeldIn;
  }

  /** The history of `t` is that of `s` or more, with these new elements, if any. */
  lemma PastGrows(c: Config, s: State, t: State)
    requires Past(c, s) && Grows(s, t)
    requires forall g :: g in t.grants && g !in s.grants ==> GrantOk(c, t, g)
    requires forall j :: j in t.tickets && j !in s.tickets ==> TicketOk(c, t, j)
    requires forall i :: |s.minted| <= i < |t.minted| ==> MintOk(c, t, t.minted[i])
    requires SpentOnce(t.redeemed, t.grants, t.rotated, t.tickets) && NoForks(t.tickets)
    requires Separate(t.tickets, t.accessJtis)
    ensures Past(c, t)
  {
    PastStays(c, s, t);
    hide GrantOk, TicketOk, MintOk;
    forall i | 0 <= i < |t.minted| ensures MintOk(c, t, t.minted[i]) {
      if i < |s.minted| { assert t.minted[i] == s.minted[i]; }
    }
  }

  /** Between `s` and `t` only the run, the flights and the clock changed. */
  predicate SameHistory(s: State, t: State) {
    t == s.(run := t.run, flights := t.flights, now := t.now) && s.now <= t.now
  }

  lemma SameHistoryGrows(s: State, t: State)
    requires SameHistory(s, t)
    ensures Grows(s, t)
  {
  }

  lemma PastIsHistory(c: Config, s: State, t: State)
    requires Past(c, s) && SameHistory(s, t)
    ensures Past(c, t)
  {
    SameHistoryGrows(s, t);
    hide Grows, GrantOk, TicketOk, MintOk, NoForks, SpentOnce, Separate;
    PastGrows(c, s, t);
  }

  lemma FlightsStay(c: Config, s: State, t: State, key: nat)
    requires GoodFlights(c, s, key) && Grows(s, t) && t.tickets == s.tickets
    ensures forall req :: req in s.flights ==> FlightOk(c, t, key, s.flights[req])
  {
    forall req | req in s.flights ensures FlightOk(c, t, key, s.flights[req]) {
      assert FlightOk(c, s, key, s.flights[req]);
      FlightStays(c, s, t, key, s.flights[req]);
    }
  }

  // ---------- The exchange that stands for a grant ----------

  /** Nothing else stands for the grant, which is paid for; its payment has bought nothing yet. */
  ghost predicate Exchanging(c: Config, s: State, p: Payment, g: string) {
    && s.run.Some? && Cleared(c, s, g) && s.grants[g].key == s.run.value.key
    && Paid(s, p, g) && Unbought(s.tickets, p)
    && (forall h :: HeldIn(s, h) != Some(g))
  }

  lemma LandKeepsPresent(c: Config, s: State, req: nat)
    requires Present(c, s) && s.run.Some?
    ensures Present(c, Land(s, req))
  {
    var t := Land(s, req);
    FewerHolders(s, t);
    SameHistoryGrows(s, t);
    hide GoodCodes, GoodRefreshes, FlightOk, Grows, Linear, HeldIn;
    FlightsStay(c, s, t, s.run.value.key);
  }

  lemma LandKeeps(c: Config, s: State, req: nat)
    requires Inv(c, s) && s.run.Some?
    ensures Inv(c, Land(s, req)) && Grows(s, Land(s, req))
  {
    hide Past, Present;
    SameHistoryGrows(s, Land(s, req));
    PastIsHistory(c, s, Land(s, req));
    LandKeepsPresent(c, s, req);
  }

  lemma LandUnheld(s: State, req: nat, h: Holder)
    requires Linear(s) && req in s.flights
    ensures HeldIn(Land(s, req), h) != Some(s.flights[req].grant)
  {
    assert HeldIn(s, TheFlight(req)) == Some(s.flights[req].grant);
    assert HeldIn(Land(s, req), h) == None || HeldIn(Land(s, req), h) == HeldIn(s, h);
  }

  /** A handler about to issue has the grant to itself. */
  lemma LandFrees(c: Config, s: State, req: nat)
    requires Inv(c, s) && s.run.Some? && req in s.flights
    ensures Exchanging(c, Land(s, req), PaymentOf(s.flights[req]), s.flights[req].grant)
  {
    var t, f := Land(s, req), s.flights[req];
    forall h ensures HeldIn(t, h) != Some(f.grant) { LandUnheld(s, req, h); }
    hide Past, Linear, Cleared, Paid, Unbought, HeldIn;
    SameHistoryGrows(s, t);
    FlightStays(c, s, t, s.run.value.key, f);
  }

  lemma SignKeepsPast(c: Config, s: State, t: State, m: Mint)
    requires Past(c, s) && s.accessJtis <= t.accessJtis
    requires t == s.(accessJtis := t.accessJtis, minted := s.minted + [m])
    requires MintOk(c, t, m) && Separate(s.tickets, t.accessJtis)
    ensures Past(c, t) && Grows(s, t)
  {
    assert Grows(s, t);
    hide Grows, GrantOk, TicketOk, MintOk, NoForks, SpentOnce, Separate;
    PastGrows(c, s, t);
  }

  /** A step that only signs keeps all that is not about tokens. */
  lemma SignKeeps(c: Config, s: State, t: State, m: Mint)
    requires Inv(c, s) && s.accessJtis <= t.accessJtis
    requires t == s.(accessJtis := t.accessJtis, minted := s.minted + [m])
    requires MintOk(c, t, m) && Separate(s.tickets, t.accessJtis)
    ensures Inv(c, t) && Grows(s, t)
  {
    hide Past, FlightOk, MintOk, Separate, Grows, GoodCodes, GoodRefreshes;
    SignKeepsPast(c, s, t, m);
    FewerHolders(s, t);
    hide Linear, HeldIn;
    if s.run.Some? {
      FlightsStay(c, s, t, s.run.value.key);
    }
  }

  lemma SignStillExchanging(c: Config, s: State, t: State, p: Payment, g: string, m: Mint)
    requires Exchanging(c, s, p, g) && t == s.(accessJtis := t.accessJtis, minted := s.minted + [m])
    requires s.accessJtis <= t.accessJtis
    ensures Exchanging(c, t, p, g)
  {
    ClearedStays(c, s, t, g);
    forall h ensures HeldIn(t, h) != Some(g) {
      assert HeldIn(s, h) != Some(g);
    }
    hide Cleared;
  }

  lemma NewAccessMintOk(c: Config, s: State, g: string, jti: string)
    requires s.run.Some? && GoodRun(s.run, s.flights, s.urls) && Cleared(c, s, g) && s.grants[g].key == s.run.value.key
    requires GrantOk(c, s, g) && s.grants[g].rec.audience != ""
    ensures var code := s.grants[g].rec;
            var t := SignAccess(c, s, Some(g), code.subject, code.audience, code.scope, jti);
            MintOk(c, t, t.minted[|s.minted|])
  {
    var code := s.grants[g].rec;
    var t := SignAccess(c, s, Some(g), code.subject, code.audience, code.scope, jti);
    assert Cleared(c, t, g);
    hide Cleared;
  }

  lemma SignAccessKeeps(c: Config, s: State, p: Payment, g: string, jti: string)
    requires Inv(c, s) && s.run.Some? && Cleared(c, s, g) && s.grants[g].key == s.run.value.key
    requires s.grants[g].rec.audience != "" && FreshJti(s, jti)
    ensures var code := s.grants[g].rec;
            var t := SignAccess(c, s, Some(g), code.subject, code.audience, code.scope, jti);
            && Inv(c, t) && Grows(s, t) && (Exchanging(c, s, p, g) ==> Exchanging(c, t, p, g))
  {
    var code := s.grants[g].rec;
    var t := SignAccess(c, s, Some(g), code.subject, code.audience, code.scope, jti);
    var m := t.minted[|s.minted|];
    hide MintOk, Grows, Exchanging, GoodCodes, GoodRefreshes, GoodFlights, Linear, GoodTickets, GoodMints, NoForks,
        SpentOnce, GrantOk;
    assert GrantOk(c, s, g);
    NewAccessMintOk(c, s, g, jti);
    SignKeeps(c, s, t, m);
    if Exchanging(c, s, p, g) { SignStillExchanging(c, s, t, p, g, m); }
  }

  lemma SignClientKeeps(c: Config, s: State, audience: string, scope: string, jti: string)
    requires Inv(c, s) && s.run.Some? && audience in c.allowedAudiences && FreshJti(s, jti)
    ensures var t := SignAccess(c, s, None, c.clientID, audience, scope, jti); Inv(c, t) && Grows(s, t)
  {
    var t := SignAccess(c, s, None, c.clientID, audience, scope, jti);
    SignKeeps(c, s, t, t.minted[|s.minted|]);
  }

  lemma NewIdMintOk(c: Config, s: State, g: string)
    requires s.run.Some? && GoodRun(s.run, s.flights, s.urls) && Cleared(c, s, g) && s.grants[g].key == s.run.value.key
    ensures var t := SignId(c, s, g, s.grants[g].rec); MintOk(c, t, t.minted[|s.minted|])
  {
    var t := SignId(c, s, g, s.grants[g].rec);
    assert Cleared(c, t, g);
    hide Cleared;
  }

  lemma SignIdKeeps(c: Config, s: State, p: Payment, g: string)
    requires Inv(c, s) && Exchanging(c, s, p, g)
    ensures var t := SignId(c, s, g, s.grants[g].rec); Inv(c, t) && Grows(s, t) && Exchanging(c, t, p, g)
  {
    var t := SignId(c, s, g, s.grants[g].rec);
    var m := t.minted[|s.minted|];
    NewIdMintOk(c, s, g);
    hide MintOk, Grows, Exchanging, Present, GoodGrants, GoodTickets, GoodMints, NoForks, SpentOnce;
    SignKeeps(c, s, t, m);
    SignStillExchanging(c, s, t, p, g, m);
  }

  // ---------- Issuing a refresh token ----------

  lemma IssueGrows(s: State, p: Payment, g: string, rec: RefreshRecord, jti: string)
    requires s.run.Some? && FreshJti(s, jti)
    ensures Grows(s, IssueRefresh(s, p, g, rec, jti))
  {
  }

  lemma NewTicketOk(c: Config, s: State, p: Payment, g: string, rec: RefreshRecord, jti: string)
    requires Exchanging(c, s, p, g) && FreshJti(s, jti) && Faithful(s.grants[g].rec, rec)
    ensures TicketOk(c, IssueRefresh(s, p, g, rec, jti), jti)
  {
    var t := IssueRefresh(s, p, g, rec, jti);
    IssueGrows(s, p, g, rec, jti);
    ClearedStays(c, s, t, g);
    PaidStays(s, t, p, g);
    hide Cleared, Paid, Unbought, HeldIn, Grows, Faithful;
  }

  lemma NewRefreshMintOk(c: Config, s: State, p: Payment, g: string, rec: RefreshRecord, jti: string)
    requires Exchanging(c, s, p, g) && FreshJti(s, jti) && Faithful(s.grants[g].rec, rec)
    requires GoodRun(s.run, s.flights, s.urls) && rec.expires == s.now + c.refreshTTL
    ensures MintOk(c, IssueRefresh(s, p, g, rec, jti), IssueRefresh(s, p, g, rec, jti).minted[|s.minted|])
  {
    var t := IssueRefresh(s, p, g, rec, jti);
    IssueGrows(s, p, g, rec, jti);
    ClearedStays(c, s, t, g);
    hide Cleared, Paid, Unbought, HeldIn, Grows, OffersOffline;
  }

  lemma NewPayment(s: State, p: Payment, g: string, rec: RefreshRecord, jti: string)
    requires s.run.Some? && Unbought(s.tickets, p) && NoForks(s.tickets) && FreshJti(s, jti)
    requires SpentOnce(s.redeemed, s.grants, s.rotated, s.tickets) && Separate(s.tickets, s.accessJtis)
    ensures var t := IssueRefresh(s, p, g, rec, jti);
            && NoForks(t.tickets) && SpentOnce(t.redeemed, t.grants, t.rotated, t.tickets)
            && Separate(t.tickets, t.accessJtis)
  {
  }

  lemma IssueKeepsPast(c: Config, s: State, p: Payment, g: string, rec: RefreshRecord, jti: string)
    requires Past(c, s) && GoodRun(s.run, s.flights, s.urls)
    requires Exchanging(c, s, p, g) && FreshJti(s, jti) && Faithful(s.grants[g].rec, rec)
    requires rec.expires == s.now + c.refreshTTL
    ensures Past(c, IssueRefresh(s, p, g, rec, jti))
  {
    var t := IssueRefresh(s, p, g, rec, jti);
    IssueGrows(s, p, g, rec, jti);
    NewTicketOk(c, s, p, g, rec, jti);
    NewRefreshMintOk(c, s, p, g, rec, jti);
    NewPayment(s, p, g, rec, jti);
    hide TicketOk, MintOk, GrantOk, Exchanging, Grows, NoForks, SpentOnce, Separate, GoodGrants, GoodTickets,
        GoodMints, Faithful;
    PastGrows(c, s, t);
  }

  lemma IssueKeepsLinear(c: Config, s: State, p: Payment, g: string, rec: RefreshRecord, jti: string)
    requires Linear(s) && Exchanging(c, s, p, g) && FreshJti(s, jti)
    requires forall j :: j in s.rotated ==> j in s.tickets
    ensures Linear(IssueRefresh(s, p, g, rec, jti))
  {
    var t := IssueRefresh(s, p, g, rec, jti);
    OneHolder(s, t, TheRefresh(jti));
  }

  /** No other flight was paid for the same way, or it would stand for the same grant. */
  lemma OtherPayments(c: Config, s: State, p: Payment, g: string, req: nat)
    requires Exchanging(c, s, p, g) && req in s.flights && FlightOk(c, s, s.run.value.key, s.flights[req])
    ensures PaymentOf(s.flights[req]) != p
  {
    assert HeldIn(s, TheFlight(req)) == Some(s.flights[req].grant);
  }

  lemma IssueKeepsFlight(c: Config, s: State, p: Payment, g: string, rec: RefreshRecord, jti: string, req: nat)
    requires Exchanging(c, s, p, g) && FreshJti(s, jti)
    requires req in s.flights && FlightOk(c, s, s.run.value.key, s.flights[req])
    ensures FlightOk(c, IssueRefresh(s, p, g, rec, jti), s.run.value.key, s.flights[req])
  {
    var t, f := IssueRefresh(s, p, g, rec, jti), s.flights[req];
    OtherPayments(c, s, p, g, req);
    IssueGrows(s, p, g, rec, jti);
    assert Unbought(t.tickets, PaymentOf(f)) by { hide Cleared, Paid, HeldIn, Grows; }
    hide Exchanging, FlightOk, Grows;
    FlightStays(c, s, t, s.run.value.key, f);
  }

  lemma IssueKeepsFlights(c: Config, s: State, p: Payment, g: string, rec: RefreshRecord, jti: string)
    requires Exchanging(c, s, p, g) && FreshJti(s, jti) && GoodFlights(c, s, s.run.value.key)
    ensures GoodFlights(c, IssueRefresh(s, p, g, rec, jti), s.run.value.key)
  {
    var t := IssueRefresh(s, p, g, rec, jti);
    hide FlightOk;
    forall req | req in t.flights ensures FlightOk(c, t, s.run.value.key, t.flights[req]) {
      IssueKeepsFlight(c, s, p, g, rec, jti, req);
    }
  }

  lemma IssueKeepsRefreshes(s: State, p: Payment, g: string, rec: RefreshRecord, jti: string)
    requires s.run.Some? && FreshJti(s, jti) && (forall j :: j in s.rotated ==> j in s.tickets)
    requires GoodRefreshes(s.run.value.refreshes, s.run.value.key, s.tickets, s.rotated, s.now)
    ensures var t := IssueRefresh(s, p, g, rec, jti);
            GoodRefreshes(t.run.value.refreshes, t.run.value.key, t.tickets, t.rotated, t.now)
  {
  }

  lemma IssueKeepsPresent(c: Config, s: State, p: Payment, g: string, rec: RefreshRecord, jti: string)
    requires Present(c, s) && Exchanging(c, s, p, g) && FreshJti(s, jti)
        && (forall j :: j in s.rotated ==> j in s.tickets)
    ensures Present(c, IssueRefresh(s, p, g, rec, jti))
  {
    assert s.run.Some?;
    IssueKeepsLinear(c, s, p, g, rec, jti);
    hide Linear, GoodFlights, Exchanging;
    IssueKeepsFlights(c, s, p, g, rec, jti);
    IssueKeepsRefreshes(s, p, g, rec, jti);
    hide GoodRefreshes, GoodCodes;
  }

  lemma IssueKeeps(c: Config, s: State, p: Payment, g: string, rec: RefreshRecord, jti: string)
    requires Inv(c, s) && Exchanging(c, s, p, g) && FreshJti(s, jti) && Faithful(s.grants[g].rec, rec)
    requires rec.expires == s.now + c.refreshTTL
    ensures Inv(c, IssueRefresh(s, p, g, rec, jti)) && Grows(s, IssueRefresh(s, p, g, rec, jti))
  {
    assert s.run.Some? && GoodRun(s.run, s.flights, s.urls) && SpentOnce(s.redeemed, s.grants, s.rotated, s.tickets);
    hide Past, Present, Exchanging, Faithful, Grows;
    IssueGrows(s, p, g, rec, jti);
    IssueKeepsPast(c, s, p, g, rec, jti);
    IssueKeepsPresent(c, s, p, g, rec, jti);
  }

  // ---------- The token part of an exchange ----------

  lemma CodeTokensKeep(c: Config, s: State, g: string, a: string, r: string, fault: Fault)
    requires Inv(c, s) && Exchanging(c, s, ByCode(g), g) && FreshJti(s, a) && FreshJti(s, r) && a != r
    ensures var t := CodeTokens(c, s, g, s.grants[g].rec, a, r, fault); Inv(c, t) && Grows(s, t)
  {
    var rec, p := s.grants[g].rec, ByCode(g);
    assert Cleared(c, s, g) && s.grants[g].key == s.run.value.key;
    GrowsReflexive(s);
    SignIdKeeps(c, s, p, g);
    var s1 := SignId(c, s, g, rec);
    assert Cleared(c, s1, g);
    hide Inv, Grows, Exchanging, Cleared, OffersOffline;
    if !fault.IdFault? && !(rec.audience != "" && fault.AccessFault?) {
      if rec.audience != "" {
        SignAccessKeeps(c, s1, p, g, a);
      }
      var s2 := if rec.audience != "" then SignAccess(c, s1, Some(g), rec.subject, rec.audience, rec.scope, a) else s1;
      GrowsReflexive(s1);
      GrowsTransitive(s, s1, s2);
      if OffersOffline(rec.scope) && !fault.RefreshFault? {
        IssueKeeps(c, s2, p, g, FromCode(c, rec, s.now), r);
        GrowsTransitive(s, s2, IssueRefresh(s2, p, g, FromCode(c, rec, s.now), r));
      }
    }
  }

  lemma RefreshTokensKeep(c: Config, s: State, g: string, jti: string, rec: RefreshRecord, a: string, r: string,
      fault: Fault)
    requires Inv(c, s) && Exchanging(c, s, ByRefresh(jti), g) && FreshJti(s, a) && FreshJti(s, r) && a != r
    requires Faithful(s.grants[g].rec, rec)
    ensures var t := RefreshTokens(c, s, g, jti, rec, a, r, fault); Inv(c, t) && Grows(s, t)
  {
    GrowsReflexive(s);
    if !fault.RefreshFault? {
      var next, p := Rotated(c, rec, s.now), ByRefresh(jti);
      var s1 := IssueRefresh(s, p, g, next, r);
      IssueKeeps(c, s, p, g, next, r);
      ClearedStays(c, s, s1, g);
      if rec.audience != "" && !fault.AccessFault? {
        hide Inv, Grows, Cleared, OffersOffline;
        SignAccessKeeps(c, s1, p, g, a);
        GrowsTransitive(s, s1, SignAccess(c, s1, Some(g), rec.subject, rec.audience, rec.scope, a));
      }
    }
  }
}
