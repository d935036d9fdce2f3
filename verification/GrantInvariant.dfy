/** What every reachable state of the grant machine satisfies, piece by piece. */
module GrantInvariant {
  import opened OidcSpec
  import opened GrantProtocol

  // ---------- History only grows ----------

  predicate Kept<K, V(==)>(before: map<K, V>, after: map<K, V>) {
    forall k :: k in before ==> k in after && after[k] == before[k]
  }

  ghost predicate SameVerifiers(s: State, t: State) {
    forall g :: g in s.redeemed && g in s.verifiers ==> g in t.verifiers && t.verifiers[g] == s.verifiers[g]
  }

  ghost predicate Grows(s: State, t: State) {
    && s.now <= t.now && s.urls <= t.urls
    && Kept(s.grants, t.grants) && Kept(s.tickets, t.tickets) && s.accessJtis <= t.accessJtis
    && s.redeemed <= t.redeemed && s.rotated <= t.rotated && s.minted <= t.minted
    && SameVerifiers(s, t)
  }

  // ---------- One grant, one ticket, one token ----------

  /** The grant answers a request that /authorize accepts. */
  predicate GrantOk(c: Config, s: State, g: string)
    requires g in s.grants
  {
    var i := s.grants[g];
    i.key < |s.urls| && i.at <= s.now && Decide(c, i.request, i.at) == Grant(i.rec)
  }

  predicate Proved(c: Config, s: State, g: string)
    requires g in s.grants
  {
    s.grants[g].rec.codeChallenge != "" ==>
      g in s.verifiers && ValidatePkce(c, s.verifiers[g], s.grants[g].rec.codeChallenge) == PkceOk
  }

  /** The code was presented with a right verifier. */
  predicate Cleared(c: Config, s: State, g: string) {
    g in s.grants && g in s.redeemed && Proved(c, s, g)
  }

  predicate Faithful(code: CodeRecord, rec: RefreshRecord) {
    && rec.subject == code.subject && rec.audience == code.audience && rec.scope == code.scope
    && rec.clientID == code.clientID && OffersOffline(rec.scope)
  }

  /** The payment was for this grant, and it is spent. */
  predicate Paid(s: State, p: Payment, g: string) {
    match p
    case ByCode(code) => code == g && code in s.redeemed
    case ByRefresh(jti) => jti in s.rotated && jti in s.tickets && s.tickets[jti].grant == g
  }

  predicate TicketOk(c: Config, s: State, j: string)
    requires j in s.tickets
  {
    var t := s.tickets[j];
    && Cleared(c, s, t.grant) && t.key == s.grants[t.grant].key && Faithful(s.grants[t.grant].rec, t.rec)
    && Paid(s, t.payment, t.grant)
  }

  /** Issuer and times of a token. */
  predicate Stamped(c: Config, s: State, m: Mint) {
    && m.token.rs256 && m.token.key < |s.urls| && m.token.claims.iss == s.urls[m.token.key]
    && m.at <= s.now && m.token.claims.iat == Unix(m.at) && m.token.claims.nbf == None
    && m.token.claims.exp == Some(Unix(m.at + if m.kind == RefreshToken then c.refreshTTL else c.tokenTTL))
  }

  predicate MintOk(c: Config, s: State, m: Mint) {
    && Stamped(c, s, m)
    && (if m.grant.None? then ClientMintOk(c, s, m) else GrantMintOk(c, s, m, m.grant.value))
  }

  predicate AccessMintOk(c: Config, s: State, m: Mint) {
    && m.kind == AccessToken
    && m.token.claims.aud.Some? && m.token.claims.aud.value in c.allowedAudiences
    && m.token.claims.jti.Some? && m.token.claims.jti.value in s.accessJtis
  }

  predicate ClientMintOk(c: Config, s: State, m: Mint) {
    AccessMintOk(c, s, m) && m.token.claims.sub == c.clientID
  }

  predicate GrantMintOk(c: Config, s: State, m: Mint, g: string)
    requires m.token.key < |s.urls|
  {
    && Cleared(c, s, g)
    && m.token.key == s.grants[g].key && m.token.claims.sub == s.grants[g].rec.subject
    && match m.kind
       case IdToken => IdMintOk(c, s.grants[g].rec, m.token.claims)
       case AccessToken => AccessMintOk(c, s, m) && m.token.claims.aud == Some(s.grants[g].rec.audience)
                           && m.token.claims.scope == Given(s.grants[g].rec.scope)
       case RefreshToken => RefreshMintOk(s, g, m.token)
                            && s.tickets[m.token.claims.jti.value].rec.expires == m.at + c.refreshTTL
  }

  predicate IdMintOk(c: Config, rec: CodeRecord, claims: Claims) {
    && claims.aud == Some(c.clientID) && claims.jti == None
    && claims.nonce == Given(rec.nonce) && claims.authTime == Some(Unix(rec.authTime))
    && claims.azp == if rec.audience != "" then Some(c.clientID) else None
  }

  predicate RefreshMintOk(s: State, g: string, t: Token)
    requires t.key < |s.urls|
  {
    && t.claims.jti.Some? && t.claims.jti.value in s.tickets && t.claims.jti.value != ""
    && var ticket := s.tickets[t.claims.jti.value];
       && ticket.grant == g && ticket.key == t.key
       && t.claims.aud == Some(s.urls[t.key] + "/refresh") && t.claims.scope == Some(ticket.rec.scope)
       && t.claims.clientID == Some(ticket.rec.clientID)
  }

  // ---------- The history ----------

  ghost predicate NoRepeats(q: seq<string>) {
    forall i, j :: 0 <= i < j < |q| ==> q[i] != q[j]
  }

  ghost predicate GoodGrants(c: Config, s: State) {
    forall g :: g in s.grants ==> GrantOk(c, s, g)
  }

  ghost predicate GoodTickets(c: Config, s: State) {
    forall j :: j in s.tickets ==> TicketOk(c, s, j)
  }

  ghost predicate GoodMints(c: Config, s: State) {
    forall i :: 0 <= i < |s.minted| ==> MintOk(c, s, s.minted[i])
  }

  /** No code is past consume twice, no refresh token is. */
  ghost predicate SpentOnce(redeemed: seq<string>, grants: map<string, Issued>, rotated: seq<string>,
      tickets: map<string, Ticket>)
  {
    && NoRepeats(redeemed) && (forall g :: g in redeemed ==> g in grants)
    && NoRepeats(rotated) && (forall j :: j in rotated ==> j in tickets)
  }

  /** A payment buys at most one refresh token: the rotation chain never forks. */
  ghost predicate NoForks(tickets: map<string, Ticket>) {
    forall i, j :: i in tickets && j in tickets && tickets[i].payment == tickets[j].payment ==> i == j
  }

  ghost predicate Separate(tickets: map<string, Ticket>, accessJtis: set<string>) {
    forall j :: j in tickets ==> j !in accessJtis && j != ""
  }

  ghost predicate Past(c: Config, s: State) {
    && GoodGrants(c, s) && GoodTickets(c, s) && GoodMints(c, s) && SpentOnce(s.redeemed, s.grants, s.rotated, s.tickets)
    && NoForks(s.tickets) && Separate(s.tickets, s.accessJtis)
  }

  // ---------- The present ----------

  /** The run is the latest; without one there are no flights. */
  predicate GoodRun(run: Option<Run>, flights: map<nat, Flight>, urls: seq<string>) {
    if run.None? then flights == map[] else run.value.key + 1 == |urls| && urls[run.value.key] == run.value.url
  }

  /** The code store holds exactly this run's unredeemed grants, but for expired ones it dropped. */
  ghost predicate GoodCodes(codes: map<string, CodeRecord>, key: nat, grants: map<string, Issued>,
      redeemed: seq<string>, now: int)
  {
    && (forall g :: g in codes ==>
          g in grants && grants[g].rec == codes[g] && grants[g].key == key && g !in redeemed)
    && (forall g :: g in grants && grants[g].key == key && g !in redeemed && now <= grants[g].rec.expiresAt ==>
          g in codes)
  }

  ghost predicate GoodRefreshes(refreshes: map<string, RefreshRecord>, key: nat, tickets: map<string, Ticket>,
      rotated: seq<string>, now: int)
  {
    && (forall j :: j in refreshes ==>
          j in tickets && tickets[j].rec == refreshes[j] && tickets[j].key == key && j !in rotated)
    && (forall j :: j in tickets && tickets[j].key == key && j !in rotated && now <= tickets[j].rec.expires ==>
          j in refreshes)
  }

  function PaymentOf(f: Flight): Payment {
    if f.CodeFlight? then ByCode(f.grant) else ByRefresh(f.jti)
  }

  predicate Unbought(tickets: map<string, Ticket>, p: Payment) {
    forall j :: j in tickets ==> tickets[j].payment != p
  }

  predicate FlightOk(c: Config, s: State, key: nat, f: Flight) {
    && Cleared(c, s, f.grant) && s.grants[f.grant].key == key
    && (if f.CodeFlight? then f.code == s.grants[f.grant].rec else Faithful(s.grants[f.grant].rec, f.refresh))
    && Paid(s, PaymentOf(f), f.grant) && Unbought(s.tickets, PaymentOf(f))
  }

  ghost predicate GoodFlights(c: Config, s: State, key: nat) {
    forall req :: req in s.flights ==> FlightOk(c, s, key, s.flights[req])
  }

  /** Whatever stands for a grant: its code before it is redeemed, an exchange between consume and
      issue, a refresh token before it is rotated. */
  datatype Holder = TheCode(code: string) | TheFlight(req: nat) | TheRefresh(jti: string)

  /** The grant h stands for; a holder that expired, or that outlived its run, still counts. */
  function HeldIn(s: State, h: Holder): Option<string> {
    match h
    case TheCode(code) => if code in s.grants && code !in s.redeemed then Some(code) else None
    case TheFlight(req) => if req in s.flights then Some(s.flights[req].grant) else None
    case TheRefresh(jti) => if jti in s.tickets && jti !in s.rotated then Some(s.tickets[jti].grant) else None
  }

  /** At most one holder stands for a grant. */
  ghost predicate Linear(s: State) {
    forall h, k :: HeldIn(s, h).Some? && HeldIn(s, h) == HeldIn(s, k) ==> h == k
  }

  ghost predicate Present(c: Config, s: State) {
    && GoodRun(s.run, s.flights, s.urls) && Linear(s)
    && (s.run.Some? ==>
          && GoodCodes(s.run.value.codes, s.run.value.key, s.grants, s.redeemed, s.now)
          && GoodRefreshes(s.run.value.refreshes, s.run.value.key, s.tickets, s.rotated, s.now)
          && GoodFlights(c, s, s.run.value.key))
  }

  ghost predicate Inv(c: Config, s: State) {
    Past(c, s) && Present(c, s)
  }

  // ---------- What growth keeps ----------

  lemma GrowsReflexive(s: State)
    ensures Grows(s, s)
  {
  }

  lemma GrowsTransitive(s: State, t: State, u: State)
    requires Grows(s, t) && Grows(t, u)
    ensures Grows(s, u)
  {
  }

  lemma ClearedStays(c: Config, s: State, t: State, g: string)
    requires Grows(s, t) && Cleared(c, s, g)
    ensures Cleared(c, t, g) && t.grants[g] == s.grants[g]
  {
    hide ValidatePkce;
  }

  lemma PaidStays(s: State, t: State, p: Payment, g: string)
    requires Grows(s, t) && Paid(s, p, g)
    ensures Paid(t, p, g)
  {
  }

  lemma TicketStays(c: Config, s: State, t: State, j: string)
    requires Grows(s, t) && j in s.tickets && TicketOk(c, s, j)
    ensures j in t.tickets && TicketOk(c, t, j)
  {
    ClearedStays(c, s, t, s.tickets[j].grant);
    PaidStays(s, t, s.tickets[j].payment, s.tickets[j].grant);
    hide Cleared, Paid, OffersOffline;
  }

  lemma MintStays(c: Config, s: State, t: State, m: Mint)
    requires Grows(s, t) && MintOk(c, s, m)
    ensures MintOk(c, t, m)
  {
    if m.grant.Some? {
      ClearedStays(c, s, t, m.grant.value);
    }
    hide Cleared;
  }

  lemma FlightStays(c: Config, s: State, t: State, key: nat, f: Flight)
    requires Grows(s, t) && FlightOk(c, s, key, f) && Unbought(t.tickets, PaymentOf(f))
    ensures FlightOk(c, t, key, f)
  {
    ClearedStays(c, s, t, f.grant);
    PaidStays(s, t, PaymentOf(f), f.grant);
    hide Cleared, Paid, OffersOffline;
  }

  /** Old elements of a grown history stay good; `s` and `t` may differ in anything that only grew. */
  lemma PastStays(c: Config, s: State, t: State)
    requires Past(c, s) && Grows(s, t)
    ensures forall g :: g in s.grants ==> GrantOk(c, t, g)
    ensures forall j :: j in s.tickets ==> TicketOk(c, t, j)
    ensures forall i :: 0 <= i < |s.minted| ==> MintOk(c, t, s.minted[i])
  {
    forall j | j in s.tickets ensures TicketOk(c, t, j) { TicketStays(c, s, t, j); }
    forall i | 0 <= i < |s.minted| ensures MintOk(c, t, s.minted[i]) { MintStays(c, s, t, s.minted[i]); }
    forall g | g in s.grants ensures GrantOk(c, t, g) { assert GrantOk(c, s, g); }
  }
}
