/**
 The authorization server as a transition system. One step of a request is one SQL statement
 or one Redis command (and the local computation up to the next one); a request's program
 counter names the statement it will execute next and carries the local variables it holds.
 Any number of requests are in flight and interleave at every statement.
 */
module Machine {
  import opened Basics
  import opened Scopes
  import opened Tables

  const REFRESH_TOKEN_TTL: nat := 1_209_600_000
  const AUTHORIZATION_CODE_TTL: nat := 120_000
  const PASSWORD_RESET_TTL: nat := 1_800_000
  const MAX_MFA_ATTEMPTS: nat := 3

  /** Which refresh endpoint a rotation serves. */
  datatype Endpoint = AuthRefresh | OAuthRefresh(client: nat, requested: string)

  /** What a request does with the session it looks up. */
  datatype Purpose =
    | ForRefresh(via: Endpoint, presented: nat, row: TokenRow, next: nat)
    | ForMfa(challenge: nat)

  datatype Challenge = Challenge(user: nat, session: nat, attempts: nat)

  datatype CodeForm = CodeForm(code: Text, redirect: string, verifier: Text)

  datatype TokenForm =
    | CodeGrant(form: CodeForm)
    | RefreshGrant(token: Text, scope: string)
    | CredentialsGrant(scope: string)

  datatype AuthorizeForm = AuthorizeForm(
    client: nat, redirect: string, scope: string, challenge: Text, codeMethod: Method, user: Option<nat>)

  /** Program counters: the statement a request executes next. */
  datatype Proc =
    // RefreshTokenService.consume
    | UpdateRotated(via: Endpoint, hash: Text)
    | InsertSuccessor(via: Endpoint, presented: nat, row: TokenRow)
    | SelectKnown(hash: Text)
    | RevokeReusedFamily(known: nat, row: TokenRow)
    | RevokeReusedSession(known: nat, row: TokenRow)
    // RefreshTokenService.revokeByToken, and OAuthService.revoke around it
    | RevokeByToken(hash: Text)
    | RevokePresented(hash: Text, sid: Option<nat>)
    // SessionRepository.findById
    | GetCached(session: nat, why: Purpose)
    | SelectSession(session: nat, hit: bool, why: Purpose)
    | SetCached(session: nat, loaded: SessionRow, why: Purpose)
    | DelCached(session: nat, why: Purpose)
    | Resume(session: nat, found: Option<SessionRow>, why: Purpose)
    // SessionRepository.revoke, with the refresh token a logout also revokes
    | EndSession(session: nat, refresh: Option<Text>)
    | EndSessionTokens(session: nat, refresh: Option<Text>)
    | DelSession(session: nat, refresh: Option<Text>)
    // SessionRepository.revokeAllForUser
    | EndUserSessions(user: nat)
    | EndUserTokens(user: nat)
    | DelAllSessions
    // issueSessionTokens, issueUserTokens
    | InsertSession(user: nat, client: Option<nat>, origin: Origin, scope: string)
    | InsertRoot(session: nat, user: nat, client: Option<nat>, origin: Origin, scope: string)
    // MfaService login challenge
    | SetChallenge(user: nat, session: nat)
    | GetChallenge(challenge: nat)
    | DropChallenge(challenge: nat)
    | CheckCode(challenge: nat, seen: Challenge)
    | SetAttempts(challenge: nat, seen: Challenge)
    | PassSession(challenge: nat, seen: Challenge)
    | DelChallenge(challenge: nat, seen: Challenge)
    // OAuthService.authorize and token
    | SelectAuthorizingClient(request: AuthorizeForm)
    | InsertCode(request: AuthorizeForm, owner: nat)
    | SelectClient(clientId: nat, secret: Option<Text>, grant: TokenForm)
    | PeekCode(clientId: nat, form: CodeForm)
    | SelectCode(clientId: nat, form: CodeForm, peeked: nat)
    | ConsumeCode(clientId: nat, form: CodeForm, peeked: nat)
    | RevokeReplayed(code: nat, user: nat, clientId: nat)
    // AuthService.resetPassword
    | UseReset(hash: Text, policyOk: bool)
    | SetPassword(reset: nat, user: nat)

  /** What a request handed out: the access tokens, with the grant behind each. */
  datatype Grant =
    | Refreshed(request: nat, via: Endpoint, presented: nat, session: nat, scope: string)
    | SignedIn(request: nat, session: nat, scope: string)
    | ClientToken(client: nat, scope: string)

  datatype Check = Check(challenge: nat, session: nat, passed: bool)

  /**
   grants, checks and changes are histories (access tokens returned, second-factor codes checked,
   passwords reset); no statement reads them.
   */
  datatype State = State(
    now: int,
    tokens: seq<TokenRow>, sessions: seq<SessionRow>, codes: seq<CodeRow>,
    clients: seq<ClientRow>, resets: seq<ResetRow>,
    cache: map<nat, SessionRow>, challenges: map<nat, Challenge>, challengeIds: set<nat>,
    procs: map<nat, Proc>,
    grants: seq<Grant>, checks: seq<Check>, changes: seq<nat>)

  /** Values a step draws from outside: a random secret, a random id, a verdict, the keys a scan saw. */
  datatype Choice = Choice(secret: Text, id: nat, ok: bool, swept: set<nat>)

  datatype Event =
    | Tick(t: int)
    | Arrive(r: nat, p: Proc)
    | Step(r: nat, c: Choice)
    | Abort(r: nat)                        // crash, lost connection, failed query
    | Evict(session: nat)                  // a cached session expires
    | ExpireChallenge(challenge: nat)
    | Register(client: ClientRow)
    | Enable(id: nat, on: bool)
    | RotateSecret(id: nat, hash: Text)
    | IssueReset(user: nat, secret: Text)

  const Init: State :=
    State(0, [], [], [], [], [], map[], map[], {}, map[], [], [], [])

  /** The first statement of each request the server accepts. */
  predicate Initial(p: Proc) {
    match p
    case UpdateRotated(via, _) => via.AuthRefresh?
    case RevokePresented(_, _) => true
    case RevokeByToken(_) => true
    case EndSession(_, _) => true
    case EndUserSessions(_) => true
    case InsertSession(_, client, origin, _) => client == None && !origin.FromCode?
    case GetChallenge(_) => true
    case SelectAuthorizingClient(_) => true
    case SelectClient(_, _, _) => true
    case UseReset(_, _) => true
    case _ => false
  }

  /** How many times a user's password has been replaced. */
  function Replaced(changes: seq<nat>, resets: seq<ResetRow>, user: nat): nat {
    if |changes| == 0 then 0
    else
      var last := changes[|changes| - 1];
      Replaced(changes[..|changes| - 1], resets, user) + (if last < |resets| && resets[last].user == user then 1 else 0)
  }

  /** A sign-in arrives when it reads the user's password; what it checks is that one. */
  predicate ReadsPassword(s: State, p: Proc) {
    p.InsertSession? && !p.origin.FromCode? ==> p.origin.asOf == Replaced(s.changes, s.resets, p.user)
  }

  function Goto(s: State, r: nat, p: Proc): State { s.(procs := s.procs[r := p]) }

  function Finish(s: State, r: nat): State { s.(procs := s.procs - {r}) }

  // consume

  function DoUpdateRotated(s: State, r: nat, via: Endpoint, hash: Text): State {
    var hit := Consumable(s.tokens, hash, s.now);
    if hit.None? then Goto(s, r, SelectKnown(hash))
    else
      var row := s.tokens[hit.value].(status := Rotated);
      Goto(s.(tokens := s.tokens[hit.value := row]), r, InsertSuccessor(via, hit.value, row))
  }

  predicate FreshSecret(s: State, secret: Text) {
    && (forall i :: 0 <= i < |s.tokens| ==> s.tokens[i].hash != Sha256(secret))
    && (forall i :: 0 <= i < |s.codes| ==> s.codes[i].hash != Sha256(secret))
    && (forall i :: 0 <= i < |s.resets| ==> s.resets[i].hash != Sha256(secret))
  }

  /** Where a rotation goes once its successor, row next, is inserted. */
  function AfterRotation(via: Endpoint, presented: nat, row: TokenRow, next: nat): Proc {
    if via.OAuthRefresh? && row.client != Some(via.client) then RevokeByToken(row.hash)
    else GetCached(row.session, ForRefresh(via, presented, row, next))
  }

  function DoInsertSuccessor(s: State, r: nat, via: Endpoint, presented: nat, row: TokenRow, secret: Text): State {
    if !FreshSecret(s, secret) then s
    else
      var next := Successor(presented, row, secret, s.now + REFRESH_TOKEN_TTL);
      Goto(s.(tokens := s.tokens + [next]), r, AfterRotation(via, presented, row, |s.tokens|))
  }

  function DoSelectKnown(s: State, r: nat, hash: Text): State {
    var known := TokenByHash(s.tokens, hash);
    if known.None? then Finish(s, r)
    else Goto(s, r, RevokeReusedFamily(known.value, s.tokens[known.value]))
  }

  function DoRevokeReusedFamily(s: State, r: nat, seen: nat, row: TokenRow): State {
    Goto(s.(tokens := RevokeTokens(s.tokens, OfFamily(row.family))), r, RevokeReusedSession(seen, row))
  }

  function DoRevokeReusedSession(s: State, r: nat, row: TokenRow): State {
    Finish(s.(sessions := CloseSessions(s.sessions, ById(row.session))), r)
  }

  // revokeByToken

  function DoRevokeByToken(s: State, r: nat, hash: Text): State {
    Finish(s.(tokens := RevokeTokens(s.tokens, WithHash(hash))), r)
  }

  function DoRevokePresented(s: State, r: nat, hash: Text, sid: Option<nat>): State {
    var s' := s.(tokens := RevokeTokens(s.tokens, WithHash(hash)));
    var known := TokenByHash(s.tokens, hash);
    if (known.Some? && s.tokens[known.value].status != Revoked) || sid.None? then Finish(s', r)
    else Goto(s', r, EndSession(sid.value, None))
  }

  // findById

  function DoGetCached(s: State, r: nat, sid: nat, why: Purpose): State {
    if sid in s.cache && s.cache[sid].status != Open then Goto(s, r, Resume(sid, Some(s.cache[sid]), why))
    else Goto(s, r, SelectSession(sid, sid in s.cache, why))
  }

  function DoSelectSession(s: State, r: nat, sid: nat, hit: bool, why: Purpose): State {
    var row := SessionById(s.sessions, sid);
    if row.Some? then Goto(s, r, SetCached(sid, row.value, why))
    else if hit then Goto(s, r, DelCached(sid, why))
    else Goto(s, r, Resume(sid, None, why))
  }

  function DoSetCached(s: State, r: nat, sid: nat, row: SessionRow, why: Purpose): State {
    Goto(s.(cache := s.cache[sid := row]), r, Resume(sid, Some(row), why))
  }

  function DoDelCached(s: State, r: nat, sid: nat, why: Purpose): State {
    Goto(s.(cache := s.cache - {sid}), r, Resume(sid, None, why))
  }

  /** Both refresh endpoints and the MFA completion, from the session read to the response. */
  function DoResume(s: State, r: nat, found: Option<SessionRow>, sid: nat, why: Purpose, admin: bool): State {
    match why
    case ForRefresh(via, presented, row, next) =>
      if found.None? || found.value.status != Open then
        Finish(s.(tokens := RevokeTokens(s.tokens, OfFamily(row.family))), r)
      else if via.AuthRefresh? then
        Finish(s.(grants := s.grants + [Refreshed(r, via, presented, row.session, row.scope)]), r)
      else if !NarrowingAllowed(row.scope, via.requested) then
        Finish(s, r)
      else
        var granted := Refreshed(r, via, presented, row.session, Narrowed(row.scope, via.requested));
        Finish(s.(grants := s.grants + [granted]), r)
    case ForMfa(_) =>
      if found.None? || found.value.status != Open then Finish(s, r)
      else Goto(s, r, InsertRoot(sid, found.value.user, None, found.value.origin, DefaultScope(admin)))
  }

  // SessionRepository.revoke and revokeAllForUser

  function DoEndSession(s: State, r: nat, sid: nat, refresh: Option<Text>): State {
    Goto(s.(sessions := CloseSessions(s.sessions, ById(sid))), r, EndSessionTokens(sid, refresh))
  }

  function DoEndSessionTokens(s: State, r: nat, sid: nat, refresh: Option<Text>): State {
    Goto(s.(tokens := RevokeTokens(s.tokens, ActiveOfSession(sid))), r, DelSession(sid, refresh))
  }

  function DoDelSession(s: State, r: nat, sid: nat, refresh: Option<Text>): State {
    var s' := s.(cache := s.cache - {sid});
    if refresh.None? then Finish(s', r) else Goto(s', r, RevokeByToken(refresh.value))
  }

  function DoEndUserSessions(s: State, r: nat, user: nat): State {
    Goto(s.(sessions := CloseSessions(s.sessions, ByUser(user))), r, EndUserTokens(user))
  }

  function DoEndUserTokens(s: State, r: nat, user: nat): State {
    Goto(s.(tokens := RevokeTokens(s.tokens, OfUser(user))), r, DelAllSessions)
  }

  function DoDelAllSessions(s: State, r: nat, swept: set<nat>): State {
    Finish(s.(cache := s.cache - swept), r)
  }

  // session and token issuance

  function DoInsertSession(s: State, r: nat, user: nat, client: Option<nat>, origin: Origin, scope: string,
        admin: bool): State
  {
    var sid := |s.sessions|;
    var s' := s.(sessions := s.sessions + [SessionRow(user, client, origin, origin.FromCode?, Open)]);
    match origin
    case SecondFactor(_) => Goto(s', r, SetChallenge(user, sid))
    case Password(_) => Goto(s', r, InsertRoot(sid, user, client, origin, DefaultScope(admin)))
    case FromCode(_) => Goto(s', r, InsertRoot(sid, user, client, origin, scope))
  }

  predicate FreshFamily(s: State, family: nat) {
    forall i :: 0 <= i < |s.tokens| ==> s.tokens[i].family != family
  }

  function DoInsertRoot(s: State, r: nat, sid: nat, user: nat, client: Option<nat>, scope: string, c: Choice): State {
    if !FreshSecret(s, c.secret) || !FreshFamily(s, c.id) then s
    else
      var row := TokenRow(sid, user, client, Sha256(c.secret), c.id, None, scope, Active, s.now + REFRESH_TOKEN_TTL);
      Finish(s.(tokens := s.tokens + [row], grants := s.grants + [SignedIn(r, sid, scope)]), r)
  }

  // MFA login challenge

  function DoSetChallenge(s: State, r: nat, user: nat, sid: nat, id: nat): State {
    if id in s.challengeIds then s
    else Finish(s.(challenges := s.challenges[id := Challenge(user, sid, 0)], challengeIds := s.challengeIds + {id}), r)
  }

  function DoGetChallenge(s: State, r: nat, id: nat): State {
    if id !in s.challenges then Finish(s, r)
    else if s.challenges[id].attempts >= MAX_MFA_ATTEMPTS then Goto(s, r, DropChallenge(id))
    else Goto(s, r, CheckCode(id, s.challenges[id]))
  }

  function DoDropChallenge(s: State, r: nat, id: nat): State {
    Finish(s.(challenges := s.challenges - {id}), r)
  }

  function DoCheckCode(s: State, r: nat, id: nat, seen: Challenge, ok: bool): State {
    var s' := s.(checks := s.checks + [Check(id, seen.session, ok)]);
    Goto(s', r, if ok then PassSession(id, seen) else SetAttempts(id, seen))
  }

  function DoSetAttempts(s: State, r: nat, id: nat, seen: Challenge): State {
    Finish(s.(challenges := s.challenges[id := seen.(attempts := seen.attempts + 1)]), r)
  }

  function DoPassSession(s: State, r: nat, id: nat, seen: Challenge): State {
    Goto(s.(sessions := PassMfa(s.sessions, seen.session)), r, DelChallenge(id, seen))
  }

  function DoDelChallenge(s: State, r: nat, id: nat, seen: Challenge): State {
    Goto(s.(challenges := s.challenges - {id}), r, GetCached(seen.session, ForMfa(id)))
  }

  // OAuth

  predicate MayAuthorize(c: ClientRow, f: AuthorizeForm) {
    && c.enabled
    && f.redirect in c.redirects
    && Within(Words(f.scope), c.allowedScopes)
    && !(f.codeMethod == Plain && c.requirePkce)
    && f.user.Some?
  }

  /** wellFormed: the challenge's regular expression matches and the user row is active. */
  function DoSelectAuthorizingClient(s: State, r: nat, f: AuthorizeForm, wellFormed: bool): State {
    if f.client < |s.clients| && MayAuthorize(s.clients[f.client], f) && wellFormed
    then Goto(s, r, InsertCode(f, f.user.value))
    else Finish(s, r)
  }

  function DoInsertCode(s: State, r: nat, f: AuthorizeForm, owner: nat, secret: Text): State {
    if !FreshSecret(s, secret) then s
    else
      var row := CodeRow(Sha256(secret), f.client, owner, f.redirect, f.scope, f.challenge, f.codeMethod,
                         s.now + AUTHORIZATION_CODE_TTL, None);
      Finish(s.(codes := s.codes + [row]), r)
  }

  predicate Authenticates(c: ClientRow, secret: Option<Text>) {
    if c.confidential then secret.Some? && c.secretHash == Some(Sha256(secret.value)) else secret.None?
  }

  predicate MayUseCredentials(c: ClientRow, secret: Option<Text>, scope: string) {
    && c.confidential && !c.noSecretAuth && Authenticates(c, secret) && c.clientCredentials
    && Words(scope) != [] && Within(Words(scope), c.allowedScopes)
  }

  function DoSelectClient(s: State, r: nat, client: nat, secret: Option<Text>, grant: TokenForm): State {
    if client >= |s.clients| || !s.clients[client].enabled then Finish(s, r)
    else
      match grant
      case CodeGrant(form) =>
        if Authenticates(s.clients[client], secret) then Goto(s, r, PeekCode(client, form)) else Finish(s, r)
      case RefreshGrant(token, scope) =>
        if Authenticates(s.clients[client], secret)
        then Goto(s, r, UpdateRotated(OAuthRefresh(client, scope), Sha256(token)))
        else Finish(s, r)
      case CredentialsGrant(scope) =>
        if MayUseCredentials(s.clients[client], secret, scope)
        then Finish(s.(grants := s.grants + [ClientToken(client, Join(Words(scope)))]), r)
        else Finish(s, r)
  }

  /** The outcome of reading a code row before consuming it. */
  datatype Reading = Unusable | Replayed(code: nat) | Usable(code: nat)

  function ReadCode(codes: seq<CodeRow>, now: int, client: nat, form: CodeForm): (r: Reading)
    ensures !r.Unusable? ==> r.code < |codes| && codes[r.code].hash == Sha256(form.code)
    ensures r.Usable? ==> codes[r.code].consumed.None?
  {
    var hit := CodeByHash(codes, Sha256(form.code));
    if hit.None? then Unusable
    else
      var row := codes[hit.value];
      if row.client != client || row.redirect != form.redirect then Unusable
      else if row.consumed.Some? then Replayed(hit.value)
      else if row.expiresAt < now then Unusable
      else Usable(hit.value)
  }

  function DoPeekCode(s: State, r: nat, client: nat, form: CodeForm): State {
    match ReadCode(s.codes, s.now, client, form)
    case Unusable => Finish(s, r)
    case Replayed(c) => Goto(s, r, RevokeReplayed(c, s.codes[c].user, client))
    case Usable(c) =>
      if Matches(form.verifier, s.codes[c].challenge, s.codes[c].codeMethod)
      then Goto(s, r, SelectCode(client, form, c))
      else Finish(s, r)
  }

  function DoSelectCode(s: State, r: nat, client: nat, form: CodeForm): State {
    match ReadCode(s.codes, s.now, client, form)
    case Unusable => Finish(s, r)
    case Replayed(c) => Goto(s, r, RevokeReplayed(c, s.codes[c].user, client))
    case Usable(c) => Goto(s, r, ConsumeCode(client, form, c))
  }

  function DoConsumeCode(s: State, r: nat, client: nat, form: CodeForm, code: nat): State {
    if code >= |s.codes| then Finish(s, r)
    else
      var row := s.codes[code];
      if row.consumed.Some? then Goto(s, r, RevokeReplayed(code, row.user, client))
      else
        var used := row.(consumed := Some(Presented(client, form.redirect, form.verifier)));
        Goto(s.(codes := s.codes[code := used]), r, InsertSession(row.user, Some(client), FromCode(code), row.scope))
  }

  function DoRevokeReplayed(s: State, r: nat, user: nat, client: nat): State {
    Finish(s.(tokens := RevokeTokens(s.tokens, OfUserAndClient(user, client))), r)
  }

  // password reset

  function DoUseReset(s: State, r: nat, hash: Text, policyOk: bool): State {
    var hit := Redeemable(s.resets, hash, s.now);
    if !policyOk || hit.None? then Finish(s, r)
    else
      var row := s.resets[hit.value];
      Goto(s.(resets := s.resets[hit.value := row.(used := true)]), r, SetPassword(hit.value, row.user))
  }

  function DoSetPassword(s: State, r: nat, reset: nat, user: nat): State {
    Goto(s.(changes := s.changes + [reset]), r, EndUserSessions(user))
  }

  predicate Rotating(p: Proc) {
    || p.UpdateRotated? || p.InsertSuccessor? || p.Resume? || p.SelectClient?
  }

  function StepRotating(s: State, r: nat, p: Proc, c: Choice): State
    requires Rotating(p)
  {
    match p
    case UpdateRotated(via, hash) => DoUpdateRotated(s, r, via, hash)
    case InsertSuccessor(via, presented, row) => DoInsertSuccessor(s, r, via, presented, row, c.secret)
    case Resume(sid, found, k) => DoResume(s, r, found, sid, k, c.ok)
    case SelectClient(client, secret, grant) => DoSelectClient(s, r, client, secret, grant)
  }

  predicate Revoking(p: Proc) {
    || p.SelectKnown? || p.RevokeReusedFamily? || p.RevokeReusedSession? || p.RevokeByToken?
    || p.RevokePresented? || p.RevokeReplayed?
  }

  function StepRevoking(s: State, r: nat, p: Proc, c: Choice): State
    requires Revoking(p)
  {
    match p
    case SelectKnown(hash) => DoSelectKnown(s, r, hash)
    case RevokeReusedFamily(seen, row) => DoRevokeReusedFamily(s, r, seen, row)
    case RevokeReusedSession(seen, row) => DoRevokeReusedSession(s, r, row)
    case RevokeByToken(hash) => DoRevokeByToken(s, r, hash)
    case RevokePresented(hash, sid) => DoRevokePresented(s, r, hash, sid)
    case RevokeReplayed(_, user, client) => DoRevokeReplayed(s, r, user, client)
  }

  predicate Ending(p: Proc) {
    || p.EndSession? || p.EndSessionTokens? || p.DelSession? || p.EndUserSessions?
    || p.EndUserTokens? || p.DelAllSessions?
  }

  function StepEnding(s: State, r: nat, p: Proc, c: Choice): State
    requires Ending(p)
  {
    match p
    case EndSession(sid, refresh) => DoEndSession(s, r, sid, refresh)
    case EndSessionTokens(sid, refresh) => DoEndSessionTokens(s, r, sid, refresh)
    case DelSession(sid, refresh) => DoDelSession(s, r, sid, refresh)
    case EndUserSessions(user) => DoEndUserSessions(s, r, user)
    case EndUserTokens(user) => DoEndUserTokens(s, r, user)
    case DelAllSessions => DoDelAllSessions(s, r, c.swept)
  }

  predicate Finding(p: Proc) {
    || p.GetCached? || p.SelectSession? || p.SetCached? || p.DelCached?
  }

  function StepFinding(s: State, r: nat, p: Proc, c: Choice): State
    requires Finding(p)
  {
    match p
    case GetCached(sid, k) => DoGetCached(s, r, sid, k)
    case SelectSession(sid, hit, k) => DoSelectSession(s, r, sid, hit, k)
    case SetCached(sid, row, k) => DoSetCached(s, r, sid, row, k)
    case DelCached(sid, k) => DoDelCached(s, r, sid, k)
  }

  predicate Challenging(p: Proc) {
    || p.SetChallenge? || p.GetChallenge? || p.DropChallenge? || p.CheckCode?
    || p.SetAttempts? || p.PassSession? || p.DelChallenge?
  }

  function StepChallenging(s: State, r: nat, p: Proc, c: Choice): State
    requires Challenging(p)
  {
    match p
    case SetChallenge(user, sid) => DoSetChallenge(s, r, user, sid, c.id)
    case GetChallenge(id) => DoGetChallenge(s, r, id)
    case DropChallenge(id) => DoDropChallenge(s, r, id)
    case CheckCode(id, seen) => DoCheckCode(s, r, id, seen, c.ok)
    case SetAttempts(id, seen) => DoSetAttempts(s, r, id, seen)
    case PassSession(id, seen) => DoPassSession(s, r, id, seen)
    case DelChallenge(id, seen) => DoDelChallenge(s, r, id, seen)
  }

  predicate Authorizing(p: Proc) {
    || p.SelectAuthorizingClient? || p.PeekCode? || p.SelectCode?
  }

  function StepAuthorizing(s: State, r: nat, p: Proc, c: Choice): State
    requires Authorizing(p)
  {
    match p
    case SelectAuthorizingClient(f) => DoSelectAuthorizingClient(s, r, f, c.ok)
    case PeekCode(client, form) => DoPeekCode(s, r, client, form)
    case SelectCode(client, form, _) => DoSelectCode(s, r, client, form)
  }

  predicate Issuing(p: Proc) {
    || p.InsertRoot? || p.InsertSession? || p.InsertCode? || p.ConsumeCode?
    || p.UseReset? || p.SetPassword?
  }

  function StepIssuing(s: State, r: nat, p: Proc, c: Choice): State
    requires Issuing(p)
  {
    match p
    case InsertRoot(sid, user, client, origin, scope) => DoInsertRoot(s, r, sid, user, client, scope, c)
    case InsertSession(user, client, origin, scope) => DoInsertSession(s, r, user, client, origin, scope, c.ok)
    case InsertCode(f, owner) => DoInsertCode(s, r, f, owner, c.secret)
    case ConsumeCode(client, form, code) => DoConsumeCode(s, r, client, form, code)
    case UseReset(hash, policyOk) => DoUseReset(s, r, hash, policyOk)
    case SetPassword(reset, user) => DoSetPassword(s, r, reset, user)
  }

  function StepProc(s: State, r: nat, p: Proc, c: Choice): State {
    if Rotating(p) then StepRotating(s, r, p, c)
    else if Revoking(p) then StepRevoking(s, r, p, c)
    else if Ending(p) then StepEnding(s, r, p, c)
    else if Finding(p) then StepFinding(s, r, p, c)
    else if Challenging(p) then StepChallenging(s, r, p, c)
    else if Authorizing(p) then StepAuthorizing(s, r, p, c)
    else StepIssuing(s, r, p, c)
  }

  /** One atomic event. An event that is not enabled leaves the state as it is. */
  function Apply(s: State, e: Event): State {
    match e
    case Tick(t) => if t >= s.now then s.(now := t) else s
    case Arrive(r, p) => if r !in s.procs && Initial(p) && ReadsPassword(s, p) then Goto(s, r, p) else s
    case Step(r, c) => if r in s.procs then StepProc(s, r, s.procs[r], c) else s
    case Abort(r) => Finish(s, r)
    case Evict(sid) => s.(cache := s.cache - {sid})
    case ExpireChallenge(id) => s.(challenges := s.challenges - {id})
    case Register(client) => s.(clients := s.clients + [client])
    case Enable(id, on) =>
      if id < |s.clients| then s.(clients := s.clients[id := s.clients[id].(enabled := on)]) else s
    case RotateSecret(id, hash) =>
      if id < |s.clients| then s.(clients := s.clients[id := s.clients[id].(secretHash := Some(hash))]) else s
    case IssueReset(user, secret) =>
      if FreshSecret(s, secret)
      then s.(resets := s.resets + [ResetRow(user, Sha256(secret), s.now + PASSWORD_RESET_TTL, false)])
      else s
  }

  lemma TakesRotating(s: State, r: nat, p: Proc, c: Choice)
    requires r in s.procs && s.procs[r] == p && Rotating(p)
    ensures Apply(s, Step(r, c)) == StepRotating(s, r, p, c)
  {
  }

  lemma TakesRevoking(s: State, r: nat, p: Proc, c: Choice)
    requires r in s.procs && s.procs[r] == p && Revoking(p)
    ensures Apply(s, Step(r, c)) == StepRevoking(s, r, p, c)
  {
  }

  lemma TakesEnding(s: State, r: nat, p: Proc, c: Choice)
    requires r in s.procs && s.procs[r] == p && Ending(p)
    ensures Apply(s, Step(r, c)) == StepEnding(s, r, p, c)
  {
  }

  lemma TakesFinding(s: State, r: nat, p: Proc, c: Choice)
    requires r in s.procs && s.procs[r] == p && Finding(p)
    ensures Apply(s, Step(r, c)) == StepFinding(s, r, p, c)
  {
  }

  lemma StepsChallenging(s: State, r: nat, p: Proc, c: Choice)
    requires Challenging(p)
    ensures StepProc(s, r, p, c) == StepChallenging(s, r, p, c)
  {
  }

  lemma StepsRotating(s: State, r: nat, p: Proc, c: Choice)
    requires Rotating(p)
    ensures StepProc(s, r, p, c) == StepRotating(s, r, p, c)
  {
  }

  lemma StepsFinding(s: State, r: nat, p: Proc, c: Choice)
    requires Finding(p)
    ensures StepProc(s, r, p, c) == StepFinding(s, r, p, c)
  {
  }

  lemma StepsIssuing(s: State, r: nat, p: Proc, c: Choice)
    requires Issuing(p)
    ensures StepProc(s, r, p, c) == StepIssuing(s, r, p, c)
  {
  }

  lemma TakesChallenging(s: State, r: nat, p: Proc, c: Choice)
    requires r in s.procs && s.procs[r] == p && Challenging(p)
    ensures Apply(s, Step(r, c)) == StepChallenging(s, r, p, c)
  {
  }

  lemma TakesAuthorizing(s: State, r: nat, p: Proc, c: Choice)
    requires r in s.procs && s.procs[r] == p && Authorizing(p)
    ensures Apply(s, Step(r, c)) == StepAuthorizing(s, r, p, c)
  {
  }

  lemma TakesIssuing(s: State, r: nat, p: Proc, c: Choice)
    requires r in s.procs && s.procs[r] == p && Issuing(p)
    ensures Apply(s, Step(r, c)) == StepIssuing(s, r, p, c)
  {
  }

  /** The state after the events es, in order. */
  function Run(s: State, es: seq<Event>): State
    decreases |es|
  {
    if |es| == 0 then s else Apply(Run(s, es[..|es| - 1]), es[|es| - 1])
  }

  lemma RunLast(s: State, es: seq<Event>)
    requires |es| > 0
    ensures Run(s, es) == Apply(Run(s, es[..|es| - 1]), es[|es| - 1])
  {
  }

  lemma RunOne(s: State, es: seq<Event>, e: Event)
    ensures Run(s, es + [e]) == Apply(Run(s, es), e)
  {
    assert (es + [e])[..|es|] == es;
  }

  /** One event more. */
  lemma RunThen(s: State, es: seq<Event>, m: State, e: Event, m': State)
    requires Run(s, es) == m && Apply(m, e) == m'
    ensures Run(s, es + [e]) == m'
  {
    RunOne(s, es, e);
  }

  lemma RunNone(s: State)
    ensures Run(s, []) == s
  {
  }

  lemma Prefixes(a: seq<Event>, b: seq<Event>)
    requires |b| > 0
    ensures (a + b)[..|a + b| - 1] == a + b[..|b| - 1] && (a + b)[|a + b| - 1] == b[|b| - 1]
  {
  }

  /** Runs compose. */
  lemma {:induction false} RunConcat(s: State, a: seq<Event>, b: seq<Event>)
    ensures Run(s, a + b) == Run(Run(s, a), b)
    decreases |b|
  {
    if |b| == 0 {
      assert a + b == a && b == [];
      RunNone(Run(s, a));
    } else {
      RunConcat(s, a, b[..|b| - 1]);
      Prefixes(a, b);
      RunLast(s, a + b);
      RunLast(Run(s, a), b);
    }
  }

  /** Many events more. */
  lemma RunMore(s: State, es: seq<Event>, m: State, more: seq<Event>, m': State)
    requires Run(s, es) == m && Run(m, more) == m'
    ensures Run(s, es + more) == m'
  {
    RunConcat(s, es, more);
  }

  // Reachable states

  ghost predicate Moves(past: seq<State>, log: seq<Event>, i: nat)
    requires i < |log| && |past| == |log| + 1
  {
    past[i + 1] == Apply(past[i], log[i])
  }

  /** past holds every state from the empty one to s, one event of the log apart. */
  ghost predicate Recorded(past: seq<State>, log: seq<Event>, s: State) {
    && |past| == |log| + 1 && past[0] == Init && past[|log|] == s
    && forall i {:trigger Moves(past, log, i)} :: 0 <= i < |log| ==> Moves(past, log, i)
  }

  lemma OneMore(past: seq<State>, log: seq<Event>, e: Event)
    requires |past| > 0 && Recorded(past, log, past[|past| - 1])
    ensures Recorded(past + [Apply(past[|log|], e)], log + [e], Apply(past[|log|], e))
  {
    var past', log' := past + [Apply(past[|log|], e)], log + [e];
    forall i: nat | i < |log'|
      ensures Moves(past', log', i)
    {
      assert i < |log| ==> Moves(past, log, i);
    }
  }

  /** A recorded state is the one the transition system reaches by the log. */
  lemma {:induction false} RecordedIsRun(past: seq<State>, log: seq<Event>, n: nat)
    requires |past| > 0 && Recorded(past, log, past[|past| - 1]) && n <= |log|
    ensures past[n] == Run(Init, log[..n])
  {
    if n > 0 {
      RecordedIsRun(past, log, n - 1);
      assert log[..n] == log[..n - 1] + [log[n - 1]];
      RunOne(Init, log[..n - 1], log[n - 1]);
      assert Moves(past, log, n - 1);
    } else {
      assert log[..0] == [];
    }
  }

  /** The states the empty server reaches, by any events in any order. */
  ghost predicate Reachable(s: State) {
    exists past, log :: Recorded(past, log, s)
  }

  /** They are exactly the states at the end of a run. */
  lemma ReachableIsRun(s: State)
    ensures Reachable(s) <==> exists es :: Run(Init, es) == s
  {
    if Reachable(s) {
      var past, log :| Recorded(past, log, s);
      RecordedIsRun(past, log, |log|);
      assert Run(Init, log[..|log|]) == s;
    }
    if es :| Run(Init, es) == s {
      RunReachable(es);
    }
  }

  lemma {:induction false} RunReachable(es: seq<Event>)
    ensures Reachable(Run(Init, es))
    decreases |es|
  {
    if |es| == 0 {
      assert Recorded([Init], [], Init);
    } else {
      var m, e := Run(Init, es[..|es| - 1]), es[|es| - 1];
      RunReachable(es[..|es| - 1]);
      var past, log :| Recorded(past, log, m);
      OneMore(past, log, e);
      assert Recorded(past + [Apply(m, e)], log + [e], Apply(m, e));
    }
  }

  lemma ReachNext(s: State, e: Event)
    requires Reachable(s)
    ensures Reachable(Apply(s, e))
  {
    ReachableIsRun(s);
    var es :| Run(Init, es) == s;
    RunThen(Init, es, s, e, Apply(s, e));
    RunReachable(es + [e]);
  }
}
