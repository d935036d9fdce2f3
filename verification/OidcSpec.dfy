/** The decisions of the identity provider, as functions of a request, a store and a clock reading. */
module OidcSpec {
  datatype Option<T> = None | Some(value: T)

  // ---------- Configuration, records, tokens ----------

  /** `s256` is the base64url SHA-256 image of a verifier, left uninterpreted. */
  datatype Config = Config(
    clientID: string, clientSecret: string,
    redirectURIs: seq<string>, allowedAudiences: seq<string>, defaultSubject: string,
    codeTTL: int, refreshTTL: int, tokenTTL: int,
    s256: string -> string)

  datatype CodeRecord = CodeRecord(
    clientID: string, redirectURI: string, scope: string, state: string, nonce: string,
    audience: string, codeChallenge: string, subject: string, expiresAt: int, authTime: int)

  datatype RefreshRecord = RefreshRecord(
    subject: string, audience: string, scope: string, clientID: string, expires: int)

  datatype Claims = Claims(
    iss: string, sub: string, aud: Option<string>, iat: int, exp: Option<int>, nbf: Option<int>,
    jti: Option<string>, scope: Option<string>, clientID: Option<string>,
    nonce: Option<string>, azp: Option<string>, authTime: Option<int>)

  /** A signed token; the signature verifies under `key` and no other key. */
  datatype Token = Token(rs256: bool, key: nat, claims: Claims)

  const SECOND: int := 1_000_000_000

  /** Whole seconds of a time in nanoseconds. */
  function Unix(t: int): (s: int)
    ensures s * 1_000_000_000 <= t < (s + 1) * 1_000_000_000
  {
    t / SECOND
  }

  function Given(s: string): Option<string> {
    if s == "" then None else Some(s)
  }

  // ---------- Scopes ----------

  const OFFLINE_ACCESS := "offline_access"

  predicate IsSpace(c: char) {
    || '\t' <= c <= '\r' || c == ' ' || c == '\U{85}' || c == '\U{A0}' || c == '\U{1680}'
    || '\U{2000}' <= c <= '\U{200A}' || c == '\U{2028}' || c == '\U{2029}' || c == '\U{202F}' || c == '\U{205F}'
    || c == '\U{3000}'
  }

  /** The white space of ASCII, exactly, and that of Latin-1 beyond it. */
  lemma WhiteSpace(c: char)
    ensures c < '\U{80}' ==> (IsSpace(c) <==> c in " \t\n\r\U{0B}\U{0C}")
    ensures '\U{80}' <= c < '\U{100}' ==> (IsSpace(c) <==> c in "\U{85}\U{A0}")
  {}

  function WordLength(s: string): (n: nat)
    ensures n <= |s| && (forall i :: 0 <= i < n ==> !IsSpace(s[i])) && (n < |s| ==> IsSpace(s[n]))
  {
    if s == "" || IsSpace(s[0]) then 0 else 1 + WordLength(s[1..])
  }

  /** The maximal runs of characters that are not white space. */
  function Words(s: string): seq<string>
    decreases |s|
  {
    if s == "" then []
    else if IsSpace(s[0]) then Words(s[1..])
    else
      var n := WordLength(s);
      [s[..n]] + Words(s[n..])
  }

  predicate OffersOffline(scope: string) {
    OFFLINE_ACCESS in Words(scope)
  }

  /** w stands at position i of s, with white space or an end on either side. */
  predicate StandsAt(s: string, w: string, i: nat) {
    && i + |w| <= |s| && s[i..i + |w|] == w
    && (i == 0 || IsSpace(s[i - 1])) && (i + |w| == |s| || IsSpace(s[i + |w|]))
  }

  ghost predicate Stands(s: string, w: string) {
    exists i: nat :: StandsAt(s, w, i)
  }

  predicate IsWord(w: string) {
    w != "" && forall i :: 0 <= i < |w| ==> !IsSpace(w[i])
  }

  /** The characters of a word that stands at i. */
  lemma StandsChars(s: string, w: string, i: nat)
    requires StandsAt(s, w, i)
    ensures forall k :: 0 <= k < |w| ==> s[i + k] == w[k]
  {
    forall k | 0 <= k < |w| ensures s[i + k] == w[k] {
      assert s[i..i + |w|][k] == s[i + k];
    }
  }

  /** A word of a suffix that begins with white space, or follows some, stands in the whole. */
  lemma StandsBefore(s: string, w: string, n: nat, i: nat)
    requires IsWord(w) && n <= |s| && StandsAt(s[n..], w, i)
    requires n < |s| && (IsSpace(s[n]) || (n > 0 && IsSpace(s[n - 1])))
    ensures StandsAt(s, w, n + i)
  {
    StandsChars(s[n..], w, i);
    assert s[n..][i..i + |w|] == s[n + i..n + i + |w|];
    assert s[n..][i] == s[n + i] == w[0];
  }

  /** A word that stands past the first n characters stands in what follows them. */
  lemma StandsAfter(s: string, w: string, n: nat, i: nat)
    requires n <= i && StandsAt(s, w, i)
    ensures StandsAt(s[n..], w, i - n)
  {
    assert s[n..][i - n..i - n + |w|] == s[i..i + |w|];
  }

  lemma SkipSpace(s: string, w: string)
    requires IsWord(w) && s != "" && IsSpace(s[0])
    ensures Stands(s, w) <==> Stands(s[1..], w)
  {
    if i: nat :| StandsAt(s[1..], w, i) {
      assert |s| > 1;
      StandsBefore(s, w, 1, i);
    }
    if i: nat :| StandsAt(s, w, i) {
      StandsChars(s, w, i);
      assert s[i + 0] == w[0];
      StandsAfter(s, w, 1, i);
    }
  }

  lemma SkipWord(s: string, w: string, n: nat)
    requires IsWord(w) && 0 < n == WordLength(s)
    ensures Stands(s, w) <==> w == s[..n] || Stands(s[n..], w)
  {
    if w == s[..n] {
      assert StandsAt(s, w, 0);
    }
    if i: nat :| StandsAt(s[n..], w, i) {
      StandsBefore(s, w, n, i);
    }
    if i: nat :| StandsAt(s, w, i) {
      StandsPast(s, w, i, n);
    }
  }

  lemma StandsPast(s: string, w: string, i: nat, n: nat)
    requires IsWord(w) && StandsAt(s, w, i) && 0 < n == WordLength(s)
    ensures if i == 0 then w == s[..n] else i >= n && StandsAt(s[n..], w, i - n)
  {
    StandsChars(s, w, i);
    if i > 0 {
      assert IsSpace(s[i - 1]);
      StandsAfter(s, w, n, i);
    }
  }

  /** Splitting at white space finds a word exactly if it stands somewhere on its own. */
  lemma {:induction false} WordsIff(s: string, w: string)
    requires IsWord(w)
    ensures w in Words(s) <==> Stands(s, w)
    decreases |s|
  {
    if s == "" {
    } else if IsSpace(s[0]) {
      SkipSpace(s, w);
      WordsIff(s[1..], w);
    } else {
      var n := WordLength(s);
      SkipWord(s, w, n);
      WordsIff(s[n..], w);
      hide Stands, IsWord;
    }
  }

  /** A scope offers offline access exactly if that word stands in it on its own. */
  lemma OfflineExactly(scope: string)
    ensures OffersOffline(scope) <==> Stands(scope, OFFLINE_ACCESS)
  {
    WordsIff(scope, OFFLINE_ACCESS);
  }

  // ---------- PKCE ----------

  datatype PkceResult = PkceOk | PkceMissing | PkceLength | PkceBadCharacter | PkceMismatch

  predicate Unreserved(c: char) {
    'A' <= c <= 'Z' || 'a' <= c <= 'z' || '0' <= c <= '9' || c == '-' || c == '.' || c == '_' || c == '~'
  }

  /** The alphabet of section 4.1 of RFC 7636 in code points: A-Z, a-z, 0-9 and the four marks. */
  lemma Alphabet(c: char)
    ensures var n := c as int;
            Unreserved(c) <==>
              0x41 <= n <= 0x5A || 0x61 <= n <= 0x7A || 0x30 <= n <= 0x39 || n in {0x2D, 0x2E, 0x5F, 0x7E}
  {}

  function Utf8Width(c: char): nat {
    if c < '\U{80}' then 1 else if c < '\U{800}' then 2 else if c < '\U{10000}' then 3 else 4
  }

  function ByteLength(s: string): nat {
    if s == "" then 0 else Utf8Width(s[0]) + ByteLength(s[1..])
  }

  predicate AllUnreserved(s: string) {
    forall i :: 0 <= i < |s| ==> Unreserved(s[i])
  }

  function ValidatePkce(c: Config, verifier: string, challenge: string): PkceResult {
    if verifier == "" then PkceMissing
    else if ByteLength(verifier) < 43 || ByteLength(verifier) > 128 then PkceLength
    else if !AllUnreserved(verifier) then PkceBadCharacter
    else if c.s256(verifier) != challenge then PkceMismatch
    else PkceOk
  }

  lemma {:induction false} ByteLengthUnreserved(s: string)
    requires AllUnreserved(s)
    ensures ByteLength(s) == |s|
  {
    if s != "" {
      assert AllUnreserved(s[1..]);
      ByteLengthUnreserved(s[1..]);
    }
  }

  /** A verifier passes exactly if it is 43 to 128 unreserved characters whose S256 image is the
      challenge (sections 4.1 and 4.6 of RFC 7636). */
  lemma PkceExactly(c: Config, verifier: string, challenge: string)
    ensures ValidatePkce(c, verifier, challenge) == PkceOk
       <==> 43 <= |verifier| <= 128 && AllUnreserved(verifier) && c.s256(verifier) == challenge
  {
    if AllUnreserved(verifier) {
      ByteLengthUnreserved(verifier);
    }
  }

  /** Exactly which check a verifier fails first: it is missing, has not 43 to 128 bytes, holds another
      than an unreserved character, or its image is not the challenge. */
  lemma PkceFailuresExactly(c: Config, verifier: string, challenge: string)
    ensures var r, n := ValidatePkce(c, verifier, challenge), ByteLength(verifier);
            && (r == PkceMissing <==> verifier == "")
            && (r == PkceLength <==> verifier != "" && !(43 <= n <= 128))
            && (r == PkceBadCharacter <==>
                  43 <= n <= 128 && exists i :: 0 <= i < |verifier| && !Unreserved(verifier[i]))
            && (r == PkceMismatch <==>
                  43 <= |verifier| <= 128 && AllUnreserved(verifier) && c.s256(verifier) != challenge)
  {
    if AllUnreserved(verifier) {
      ByteLengthUnreserved(verifier);
    }
  }

  // ---------- Client authentication ----------

  datatype Credentials = Credentials(basic: Option<(string, string)>, bodyID: string, bodySecret: string)

  datatype AuthResult = AuthOk | AuthBoth | AuthNone | AuthWrong

  function Authenticate(c: Config, r: Credentials): AuthResult {
    var hasBody := r.bodyID != "" || r.bodySecret != "";
    if r.basic.Some? && hasBody then AuthBoth
    else if r.basic.None? && !hasBody then AuthNone
    else
      var (id, secret) := if r.basic.Some? then r.basic.value else (r.bodyID, r.bodySecret);
      if id != c.clientID || secret != c.clientSecret then AuthWrong else AuthOk
  }

  /** Exactly who is admitted: right id and secret, in the header or in the body, and not in both. */
  lemma AuthenticatedExactly(c: Config, r: Credentials)
    ensures Authenticate(c, r) == AuthOk
       <==> || (r.basic.Some? && r.basic.value.0 == c.clientID && r.basic.value.1 == c.clientSecret
                && r.bodyID == "" && r.bodySecret == "")
            || (r.basic.None? && r.bodyID == c.clientID && r.bodySecret == c.clientSecret
                && !(r.bodyID == "" && r.bodySecret == ""))
    ensures Authenticate(c, r) == AuthBoth <==> r.basic.Some? && !(r.bodyID == "" && r.bodySecret == "")
    ensures Authenticate(c, r) == AuthNone <==> r.basic.None? && r.bodyID == "" && r.bodySecret == ""
  {}

  // ---------- /authorize ----------

  datatype AuthRequest = AuthRequest(
    clientID: string, redirectURI: string, responseType: string, audience: string,
    codeChallenge: string, codeChallengeMethod: string,
    sub: string, subject: string, scope: string, state: string, nonce: string)

  datatype AuthDecision =
    | BadRequest(error: string)        // answered directly, never redirected
    | RedirectError(error: string)     // sent to the redirect URI
    | Grant(rec: CodeRecord)

  function FirstGiven(a: string, b: string, c: string): string {
    if a != "" then a else if b != "" then b else c
  }

  function Decide(c: Config, q: AuthRequest, now: int): AuthDecision {
    if q.clientID == "" || q.clientID != c.clientID then BadRequest("invalid_client")
    else if q.redirectURI == "" || q.redirectURI !in c.redirectURIs then BadRequest("invalid_request")
    else if q.responseType == "" then RedirectError("invalid_request")
    else if q.responseType != "code" then RedirectError("unsupported_response_type")
    else if q.audience != "" && q.audience !in c.allowedAudiences then RedirectError("invalid_request")
    else if q.codeChallenge != "" && q.codeChallengeMethod != "S256" then RedirectError("invalid_request")
    else Grant(CodeRecord(q.clientID, q.redirectURI, q.scope, q.state, q.nonce, q.audience, q.codeChallenge,
                          FirstGiven(q.sub, q.subject, c.defaultSubject), now + c.codeTTL, now))
  }

  /** The subject is the first that was given: `sub`, then `subject`, then the configured default. */
  lemma SubjectExactly(c: Config, q: AuthRequest, now: int)
    requires Decide(c, q, now).Grant?
    ensures q.sub != "" ==> Decide(c, q, now).rec.subject == q.sub
    ensures q.sub == "" && q.subject != "" ==> Decide(c, q, now).rec.subject == q.subject
    ensures q.sub == "" && q.subject == "" ==> Decide(c, q, now).rec.subject == c.defaultSubject
  {}

  /** Exactly which requests are granted, which are answered without a redirect, and which go back to the
      client with what error. */
  lemma DecidedExactly(c: Config, q: AuthRequest, now: int)
    ensures var d := Decide(c, q, now);
            var known := q.clientID == c.clientID && q.clientID != "";
            var registered := q.redirectURI in c.redirectURIs && q.redirectURI != "";
            && (d == BadRequest("invalid_client") <==> !known)
            && (d == BadRequest("invalid_request") <==> known && !registered)
            && (d == RedirectError("unsupported_response_type") <==>
                  known && registered && q.responseType != "" && q.responseType != "code")
            && (d.Grant? <==>
                  && known && registered && q.responseType == "code"
                  && (q.audience == "" || q.audience in c.allowedAudiences)
                  && (q.codeChallenge == "" || q.codeChallengeMethod == "S256"))
            && (d.BadRequest? ==> d.error == "invalid_client" || d.error == "invalid_request")
            && (d.RedirectError? ==> d.error == "unsupported_response_type" || d.error == "invalid_request")
  {}

  // ---------- The stores' atomic operations ----------

  datatype CodeOutcome = CodeOk(rec: CodeRecord) | CodeNotFound | CodeExpired | CodeRedirectMismatch

  function ConsumeCode(records: map<string, CodeRecord>, code: string, uri: string, now: int)
    : (map<string, CodeRecord>, CodeOutcome)
  {
    if code !in records then (records, CodeNotFound)
    else if now > records[code].expiresAt then (records - {code}, CodeExpired)
    else if records[code].redirectURI != uri then (records, CodeRedirectMismatch)
    else (records - {code}, CodeOk(records[code]))
  }

  /** Exactly when consume gives which outcome, and what it leaves: an expired or an accepted code is
      gone, nothing else is. */
  lemma CodeConsumedExactly(records: map<string, CodeRecord>, code: string, uri: string, now: int)
    ensures var (left, outcome) := ConsumeCode(records, code, uri, now);
            && (outcome == CodeNotFound <==> code !in records)
            && (outcome == CodeExpired <==> code in records && records[code].expiresAt < now)
            && (outcome == CodeRedirectMismatch <==>
                  code in records && now <= records[code].expiresAt && uri != records[code].redirectURI)
            && (outcome.CodeOk? <==>
                  code in records && now <= records[code].expiresAt && uri == records[code].redirectURI)
            && (outcome.CodeOk? ==> outcome.rec == records[code])
            && left == if outcome.CodeOk? || outcome == CodeExpired then records - {code} else records
  {}

  /** Issue, then consume: a fresh code is good for exactly its record, until its expiry and with its
      redirect URI, and then never again; no other code is affected. */
  lemma CodeRoundTrip(records: map<string, CodeRecord>, code: string, rec: CodeRecord, uri: string, now: int)
    requires code !in records
    ensures var (left, outcome) := ConsumeCode(records[code := rec], code, uri, now);
            && (outcome == CodeOk(rec) <==> now <= rec.expiresAt && uri == rec.redirectURI)
            && (outcome.CodeOk? ==> left == records && forall u, t :: ConsumeCode(left, code, u, t).1 == CodeNotFound)
            && (forall other, u, t :: other != code ==>
                  && ConsumeCode(records[code := rec], other, u, t).1 == ConsumeCode(records, other, u, t).1
                  && ConsumeCode(left, other, u, t).1 == ConsumeCode(records, other, u, t).1)
  {
    assert records[code := rec] - {code} == records;
  }

  datatype RefreshOutcome =
    | RefreshOk(jti: string, rec: RefreshRecord)
    | InvalidSignature
    | WrongAudience
    | MissingJti
    | RefreshNotFound
    | RefreshExpired

  /** What the JWT library checks: method, signature, and the time claims that are there. */
  predicate Parses(t: Token, key: nat, now: int) {
    && t.rs256 && t.key == key
    && (t.claims.exp.Some? ==> now < t.claims.exp.value * SECOND)
    && (t.claims.nbf.Some? ==> now >= t.claims.nbf.value * SECOND)
  }

  /** `parsedAt` is the clock when the token is parsed, `now` when the store is looked at. */
  function ConsumeRefresh(records: map<string, RefreshRecord>, key: nat, url: string, t: Token, parsedAt: int, now: int)
    : (map<string, RefreshRecord>, RefreshOutcome)
  {
    if !Parses(t, key, parsedAt) then (records, InvalidSignature)
    else if t.claims.aud != Some(url + "/refresh") then (records, WrongAudience)
    else if t.claims.jti == None || t.claims.jti == Some("") then (records, MissingJti)
    else
      var jti := t.claims.jti.value;
      if jti !in records then (records, RefreshNotFound)
      else if now > records[jti].expires then (records - {jti}, RefreshExpired)
      else (records - {jti}, RefreshOk(jti, records[jti]))
  }

  /** Exactly which tokens are accepted for a refresh, minted or not, and which records go: RS256 under this
      run's key, time claims met when parsed, this issuer's refresh audience, a stored and unexpired jti. */
  lemma RefreshConsumedExactly(records: map<string, RefreshRecord>, key: nat, url: string, t: Token, parsedAt: int,
      now: int)
    ensures var (left, outcome) := ConsumeRefresh(records, key, url, t, parsedAt, now);
            var signed := && t.rs256 && t.key == key
                          && (t.claims.exp.None? || parsedAt < t.claims.exp.value * 1_000_000_000)
                          && (t.claims.nbf.None? || t.claims.nbf.value * 1_000_000_000 <= parsedAt);
            var named := t.claims.jti.Some? && t.claims.jti.value != "";
            var stored := named && t.claims.jti.value in records;
            var ours := t.claims.aud == Some(url + "/refresh");
            && (outcome == InvalidSignature <==> !signed)
            && (outcome == WrongAudience <==> signed && !ours)
            && (outcome == MissingJti <==> signed && ours && !named)
            && (outcome == RefreshNotFound <==> signed && ours && named && !stored)
            && (outcome == RefreshExpired <==> signed && ours && stored && records[t.claims.jti.value].expires < now)
            && (outcome.RefreshOk? <==> signed && ours && stored && now <= records[t.claims.jti.value].expires)
            && (outcome.RefreshOk? ==> outcome.jti == t.claims.jti.value && outcome.rec == records[outcome.jti])
            && left == if outcome.RefreshOk? || outcome == RefreshExpired then records - {t.claims.jti.value}
                       else records
  {}

  // ---------- What is minted ----------

  const NO_CLAIMS := Claims("", "", None, 0, None, None, None, None, None, None, None, None)

  function IdClaims(c: Config, url: string, rec: CodeRecord, now: int): Claims {
    NO_CLAIMS.(iss := url, sub := rec.subject, aud := Some(c.clientID), iat := Unix(now),
               exp := Some(Unix(now + c.tokenTTL)), authTime := Some(Unix(rec.authTime)), nonce := Given(rec.nonce),
               azp := if rec.audience != "" then Some(c.clientID) else None)
  }

  function AccessClaims(c: Config, url: string, sub: string, audience: string, scope: string, jti: string,
      now: int): Claims
  {
    NO_CLAIMS.(iss := url, sub := sub, aud := Some(audience), iat := Unix(now), exp := Some(Unix(now + c.tokenTTL)),
               jti := Some(jti), scope := Given(scope))
  }

  function RefreshClaims(url: string, rec: RefreshRecord, jti: string, now: int): Claims {
    NO_CLAIMS.(iss := url, sub := rec.subject, aud := Some(url + "/refresh"), clientID := Some(rec.clientID),
               scope := Some(rec.scope), jti := Some(jti), iat := Unix(now), exp := Some(Unix(rec.expires)))
  }

  /** The refresh record that goes with a code record, or with an older refresh record. */
  function FromCode(c: Config, rec: CodeRecord, now: int): RefreshRecord {
    RefreshRecord(rec.subject, rec.audience, rec.scope, rec.clientID, now + c.refreshTTL)
  }

  function Rotated(c: Config, rec: RefreshRecord, now: int): RefreshRecord {
    rec.(expires := now + c.refreshTTL)
  }
}
