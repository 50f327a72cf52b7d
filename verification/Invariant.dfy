/**
 The invariant of every reachable state. It has three parts:
 - Grows: tables only grow, immutable columns never change, statuses only move forward;
 - local facts about each row, request and history entry, all stable when tables grow;
 - Exclusive: every claim (a family's slot, the right to succeed a token, the right to be paid
   for a token, the right to use a code, ...) has at most one holder at a time.
 */
module Invariant {
  import opened Basics
  import opened Scopes
  import opened Tables
  import opened Machine

  // How tables evolve

  function Rank(status: TokenStatus): nat {
    match status case Active => 0 case Rotated => 1 case Revoked => 2
  }

  predicate TokenGrows(a: TokenRow, b: TokenRow) {
    b.(status := a.status) == a && Rank(a.status) <= Rank(b.status)
  }

  predicate SessionGrows(a: SessionRow, b: SessionRow) {
    && b.user == a.user && b.client == a.client && b.origin == a.origin
    && (a.mfaPassed ==> b.mfaPassed) && (a.status == Closed ==> b.status == Closed)
  }

  predicate CodeGrows(a: CodeRow, b: CodeRow) {
    b.(consumed := a.consumed) == a && (a.consumed.Some? ==> b == a)
  }

  predicate ClientGrows(a: ClientRow, b: ClientRow) {
    b.(enabled := a.enabled, secretHash := a.secretHash) == a
  }

  predicate ResetGrows(a: ResetRow, b: ResetRow) {
    b.(used := a.used) == a && (a.used ==> b.used)
  }

  predicate Grows(s: State, s': State) {
    && s.now <= s'.now
    && |s.tokens| <= |s'.tokens|
    && (forall i {:trigger s'.tokens[i]} {:trigger s.tokens[i]} ::
         0 <= i < |s.tokens| ==> TokenGrows(s.tokens[i], s'.tokens[i]))
    && |s.sessions| <= |s'.sessions|
    && (forall i {:trigger s'.sessions[i]} {:trigger s.sessions[i]} ::
         0 <= i < |s.sessions| ==> SessionGrows(s.sessions[i], s'.sessions[i]))
    && |s.codes| <= |s'.codes|
    && (forall i {:trigger s'.codes[i]} {:trigger s.codes[i]} ::
         0 <= i < |s.codes| ==> CodeGrows(s.codes[i], s'.codes[i]))
    && |s.clients| <= |s'.clients|
    && (forall i {:trigger s'.clients[i]} {:trigger s.clients[i]} ::
         0 <= i < |s.clients| ==> ClientGrows(s.clients[i], s'.clients[i]))
    && |s.resets| <= |s'.resets|
    && (forall i {:trigger s'.resets[i]} {:trigger s.resets[i]} ::
         0 <= i < |s.resets| ==> ResetGrows(s.resets[i], s'.resets[i]))
    && s.challengeIds <= s'.challengeIds
    && s.grants <= s'.grants && s.checks <= s'.checks && s.changes <= s'.changes
  }

  lemma GrowsTransitive(a: State, b: State, c: State)
    requires Grows(a, b) && Grows(b, c)
    ensures Grows(a, c)
  {
  }

  // Claims

  datatype Claim =
    | Slot(family: nat)        // being the family's live end
    | Next(token: nat)         // succeeding a token
    | Pay(token: nat)          // an access token in return for a token
    | RootOf(family: nat)      // being the family's root
    | RootIn(session: nat)     // being the root of a session that was issued in one request
    | CodeUse(code: nat)       // the session a code is good for
    | ResetUse(reset: nat)     // the password change a reset token is good for

  datatype Holder = Row(i: nat) | Request(r: nat) | Granted(k: nat) | Session(j: nat) | Changed(m: nat)

  predicate RowHolds(row: TokenRow, sessions: seq<SessionRow>, c: Claim) {
    match c
    case Slot(f) => row.status == Active && row.family == f
    case Next(p) => row.previous == Some(p)
    case RootOf(f) => row.previous == None && row.family == f
    case RootIn(sid) =>
      row.previous == None && row.session == sid && sid < |sessions| && !sessions[sid].origin.SecondFactor?
    case _ => false
  }

  predicate PurposeHolds(why: Purpose, c: Claim) {
    why.ForRefresh? && c == Pay(why.presented)
  }

  predicate ProcHolds(p: Proc, c: Claim) {
    match p
    case InsertSuccessor(_, presented, row) => c == Slot(row.family) || c == Next(presented) || c == Pay(presented)
    case GetCached(_, why) => PurposeHolds(why, c)
    case SelectSession(_, _, why) => PurposeHolds(why, c)
    case SetCached(_, _, why) => PurposeHolds(why, c)
    case DelCached(_, why) => PurposeHolds(why, c)
    case Resume(_, _, why) => PurposeHolds(why, c)
    case InsertSession(_, _, origin, _) => origin.FromCode? && c == CodeUse(origin.code)
    case InsertRoot(sid, _, _, origin, _) => !origin.SecondFactor? && c == RootIn(sid)
    case SetPassword(reset, _) => c == ResetUse(reset)
    case _ => false
  }

  predicate Holds(s: State, h: Holder, c: Claim) {
    match h
    case Row(i) => i < |s.tokens| && RowHolds(s.tokens[i], s.sessions, c)
    case Request(r) => r in s.procs && ProcHolds(s.procs[r], c)
    case Granted(k) => k < |s.grants| && s.grants[k].Refreshed? && c == Pay(s.grants[k].presented)
    case Session(j) => j < |s.sessions| && s.sessions[j].origin.FromCode? && c == CodeUse(s.sessions[j].origin.code)
    case Changed(m) => m < |s.changes| && c == ResetUse(s.changes[m])
  }

  ghost predicate Exclusive(s: State) {
    forall h, h', c {:trigger Holds(s, h, c), Holds(s, h', c)} :: Holds(s, h, c) && Holds(s, h', c) ==> h == h'
  }

  /** What must be in the tables for anyone to hold a claim. */
  predicate Existing(s: State, c: Claim) {
    match c
    case Slot(f) => !FreshFamily(s, f)
    case RootOf(f) => !FreshFamily(s, f)
    case Next(p) => Spent(s.tokens, p)
    case Pay(p) => Spent(s.tokens, p)
    case RootIn(sid) => sid < |s.sessions|
    case CodeUse(k) => k < |s.codes| && s.codes[k].consumed.Some?
    case ResetUse(m) => m < |s.resets| && s.resets[m].used
  }

  /** A claim that came into being and that nobody holds any more. */
  ghost predicate Lapsed(s: State, c: Claim) {
    Existing(s, c) && forall h :: !Holds(s, h, c)
  }

  // Local facts

  /** A copy of row i of the table, taken at some earlier time. */
  predicate Copy(t: seq<TokenRow>, i: nat, row: TokenRow) {
    i < |t| && TokenGrows(row, t[i])
  }

  /** A copy of a session, taken at some earlier time: what it says of the past still holds. */
  predicate Snapshot(t: seq<SessionRow>, sid: nat, row: SessionRow) {
    sid < |t| && SessionGrows(row, t[sid])
  }

  predicate Spent(t: seq<TokenRow>, i: nat) { i < |t| && t[i].status != Active }

  ghost predicate HasSuccessor(t: seq<TokenRow>, p: nat) {
    exists i :: 0 <= i < |t| && t[i].previous == Some(p)
  }

  ghost predicate Passed(checks: seq<Check>, sid: nat) {
    exists k :: 0 <= k < |checks| && checks[k].session == sid && checks[k].passed
  }

  predicate Bound(row: CodeRow, client: nat, form: CodeForm) {
    && row.hash == Sha256(form.code) && row.client == client && row.redirect == form.redirect
    && Matches(form.verifier, row.challenge, row.codeMethod)
  }

  /** The scope a session's tokens store: the code's, or that of a first-party login. */
  predicate RootScope(s: State, origin: Origin, scope: string) {
    if origin.FromCode? then origin.code < |s.codes| && scope == s.codes[origin.code].scope
    else scope == DefaultScope(true) || scope == DefaultScope(false)
  }

  predicate RowOk(s: State, row: TokenRow) {
    && row.session < |s.sessions|
    && s.sessions[row.session].user == row.user
    && s.sessions[row.session].client == row.client
    && (s.sessions[row.session].origin.SecondFactor? ==> s.sessions[row.session].mfaPassed)
    && row.expiresAt <= s.now + REFRESH_TOKEN_TTL
    && RootScope(s, s.sessions[row.session].origin, row.scope)
  }

  /** Row i continues its predecessor: same family and grant, no earlier expiry, and the predecessor is spent. */
  predicate LinkOk(t: seq<TokenRow>, i: nat)
    requires i < |t|
  {
    t[i].previous.Some? ==>
      var p := t[i].previous.value;
      && p < i && t[p].status != Active
      && t[p].family == t[i].family && t[p].session == t[i].session && t[p].user == t[i].user
      && t[p].client == t[i].client && t[p].scope == t[i].scope && t[p].expiresAt <= t[i].expiresAt
  }

  ghost predicate SessionOk(s: State, j: nat, row: SessionRow) {
    && (row.origin.FromCode? ==>
          var c := row.origin.code;
          && c < |s.codes| && s.codes[c].consumed.Some?
          && row.user == s.codes[c].user && row.client == Some(s.codes[c].client) && row.mfaPassed)
    && (!row.origin.FromCode? ==> row.client == None)
    && (row.origin.Password? ==> !row.mfaPassed)
    && (row.origin.SecondFactor? && row.mfaPassed ==> Passed(s.checks, j))
  }

  /** What the client a code is for was registered with. */
  predicate Registered(c: ClientRow, redirect: string, scope: string, how: Method) {
    redirect in c.redirects && Within(Words(scope), c.allowedScopes) && (c.requirePkce ==> how == S256)
  }

  predicate CodeOk(s: State, row: CodeRow) {
    && row.client < |s.clients|
    && Registered(s.clients[row.client], row.redirect, row.scope, row.codeMethod)
    && (row.consumed.Some? ==>
          && row.consumed.value.client == row.client && row.consumed.value.redirect == row.redirect
          && Matches(row.consumed.value.verifier, row.challenge, row.codeMethod))
  }

  /** The scope of a refreshed access token: what was asked for, all of it stored, or else what is stored. */
  predicate ScopeGranted(via: Endpoint, stored: string, scope: string) {
    match via
    case AuthRefresh => scope == stored
    case OAuthRefresh(_, requested) =>
      && Within(Words(requested), Words(stored))
      && if Words(requested) == [] then scope == stored else Words(scope) == Words(requested)
  }

  /** The first token of the session, with this scope. */
  ghost predicate HasRoot(t: seq<TokenRow>, sid: nat, scope: string) {
    exists i :: 0 <= i < |t| && t[i].session == sid && t[i].previous == None && t[i].scope == scope
  }

  predicate SignInOk(s: State, sid: nat, scope: string) {
    && sid < |s.sessions| && RootScope(s, s.sessions[sid].origin, scope)
    && (s.sessions[sid].origin.SecondFactor? ==> s.sessions[sid].mfaPassed)
  }

  ghost predicate GrantOk(s: State, g: Grant) {
    match g
    case Refreshed(_, via, p, sid, scope) =>
      && (via.OAuthRefresh? && p < |s.tokens| ==> s.tokens[p].client == Some(via.client))
      && Spent(s.tokens, p) && HasSuccessor(s.tokens, p) && sid == s.tokens[p].session
      && ScopeGranted(via, s.tokens[p].scope, scope)
    case SignedIn(_, sid, scope) => SignInOk(s, sid, scope) && HasRoot(s.tokens, sid, scope)
    case ClientToken(c, scope) =>
      && c < |s.clients|
      && s.clients[c].confidential && s.clients[c].clientCredentials && !s.clients[c].noSecretAuth
      && Words(scope) != [] && Within(Words(scope), s.clients[c].allowedScopes)
  }

  predicate ChallengeOk(s: State, ch: Challenge) {
    && ch.session < |s.sessions| && s.sessions[ch.session].origin.SecondFactor?
    && s.sessions[ch.session].user == ch.user
  }

  predicate PurposeOk(s: State, sid: nat, why: Purpose) {
    && sid < |s.sessions|
    && match why
       case ForRefresh(via, p, row, next) =>
         && Copy(s.tokens, p, row) && Spent(s.tokens, p) && row.session == sid
         && next < |s.tokens| && s.tokens[next].previous == Some(p)
         && (via.OAuthRefresh? ==> row.client == Some(via.client))
       case ForMfa(_) => s.sessions[sid].origin.SecondFactor? && s.sessions[sid].mfaPassed
  }

  ghost predicate ProcOk(s: State, p: Proc) {
    match p
    case InsertSuccessor(_, presented, row) => Copy(s.tokens, presented, row) && Spent(s.tokens, presented)
    case RevokeReusedFamily(seen, row) => Copy(s.tokens, seen, row)
    case RevokeReusedSession(seen, row) => Copy(s.tokens, seen, row)
    case GetCached(sid, why) => PurposeOk(s, sid, why)
    case SelectSession(sid, _, why) => PurposeOk(s, sid, why)
    case SetCached(sid, row, why) => PurposeOk(s, sid, why) && Snapshot(s.sessions, sid, row)
    case DelCached(sid, why) => PurposeOk(s, sid, why)
    case Resume(sid, found, why) => PurposeOk(s, sid, why) && (found.Some? ==> Snapshot(s.sessions, sid, found.value))
    case InsertSession(user, client, origin, scope) =>
      if origin.FromCode? then
        && origin.code < |s.codes| && s.codes[origin.code].consumed.Some?
        && user == s.codes[origin.code].user && client == Some(s.codes[origin.code].client)
        && scope == s.codes[origin.code].scope
      else client == None
    case InsertRoot(sid, user, client, origin, scope) =>
      && sid < |s.sessions| && s.sessions[sid].user == user && s.sessions[sid].client == client
      && s.sessions[sid].origin == origin
      && (origin.SecondFactor? ==> s.sessions[sid].mfaPassed)
      && RootScope(s, origin, scope)
    case SetChallenge(user, sid) => ChallengeOk(s, Challenge(user, sid, 0))
    case CheckCode(_, seen) => ChallengeOk(s, seen)
    case SetAttempts(_, seen) => ChallengeOk(s, seen)
    case PassSession(_, seen) => ChallengeOk(s, seen) && Passed(s.checks, seen.session)
    case DelChallenge(_, seen) => ChallengeOk(s, seen) && s.sessions[seen.session].mfaPassed
    case InsertCode(f, owner) =>
      && f.client < |s.clients| && Registered(s.clients[f.client], f.redirect, f.scope, f.codeMethod)
    case SelectCode(client, form, peeked) => peeked < |s.codes| && Bound(s.codes[peeked], client, form)
    case ConsumeCode(client, form, peeked) => peeked < |s.codes| && Bound(s.codes[peeked], client, form)
    case RevokeReplayed(code, user, client) =>
      && code < |s.codes| && s.codes[code].consumed.Some?
      && user == s.codes[code].user && client == s.codes[code].client
    case SetPassword(reset, user) => reset < |s.resets| && s.resets[reset].used && s.resets[reset].user == user
    case _ => true
  }

  ghost predicate UniqueHashes(s: State) {
    && (forall i, j :: 0 <= i < |s.tokens| && 0 <= j < |s.tokens| && s.tokens[i].hash == s.tokens[j].hash ==> i == j)
    && (forall i, j :: 0 <= i < |s.codes| && 0 <= j < |s.codes| && s.codes[i].hash == s.codes[j].hash ==> i == j)
    && (forall i, j :: 0 <= i < |s.resets| && 0 <= j < |s.resets| && s.resets[i].hash == s.resets[j].hash ==> i == j)
  }

  ghost predicate Local(s: State) {
    && (forall i {:trigger s.tokens[i]} :: 0 <= i < |s.tokens| ==> RowOk(s, s.tokens[i]) && LinkOk(s.tokens, i))
    && (forall j {:trigger s.sessions[j]} :: 0 <= j < |s.sessions| ==> SessionOk(s, j, s.sessions[j]))
    && (forall c {:trigger s.codes[c]} :: 0 <= c < |s.codes| ==> CodeOk(s, s.codes[c]))
    && (forall k {:trigger s.grants[k]} :: 0 <= k < |s.grants| ==> GrantOk(s, s.grants[k]))
    && (forall m {:trigger s.changes[m]} ::
         0 <= m < |s.changes| ==> s.changes[m] < |s.resets| && s.resets[s.changes[m]].used)
    && (forall sid {:trigger s.cache[sid]} :: sid in s.cache ==> Snapshot(s.sessions, sid, s.cache[sid]))
    && (forall id {:trigger s.challenges[id]} :: id in s.challenges ==> ChallengeOk(s, s.challenges[id]))
    && (forall r {:trigger s.procs[r]} :: r in s.procs ==> ProcOk(s, s.procs[r]))
  }

  ghost predicate Inv(s: State) {
    Local(s) && Exclusive(s) && UniqueHashes(s)
  }

  lemma InitInv()
    ensures Inv(Init)
  {
  }

  // Local facts survive growth

  lemma PassedStable(s: State, s': State, sid: nat)
    requires Grows(s, s') && Passed(s.checks, sid)
    ensures Passed(s'.checks, sid)
  {
    var k :| 0 <= k < |s.checks| && s.checks[k].session == sid && s.checks[k].passed;
    assert s'.checks[k] == s.checks[k];
  }

  lemma HasSuccessorStable(s: State, s': State, p: nat)
    requires Grows(s, s') && HasSuccessor(s.tokens, p)
    ensures HasSuccessor(s'.tokens, p)
  {
    var i :| 0 <= i < |s.tokens| && s.tokens[i].previous == Some(p);
    assert s'.tokens[i].previous == Some(p);
  }

  lemma HasRootStable(s: State, s': State, sid: nat, scope: string)
    requires Grows(s, s') && HasRoot(s.tokens, sid, scope)
    ensures HasRoot(s'.tokens, sid, scope)
  {
    var i :| 0 <= i < |s.tokens| && s.tokens[i].session == sid && s.tokens[i].previous == None
          && s.tokens[i].scope == scope;
    assert TokenGrows(s.tokens[i], s'.tokens[i]);
  }

  lemma RowStable(s: State, s': State, row: TokenRow, status: TokenStatus)
    requires Grows(s, s') && RowOk(s, row)
    ensures RowOk(s', row.(status := status))
  {
  }

  lemma GrantStable(s: State, s': State, g: Grant)
    requires Grows(s, s') && GrantOk(s, g)
    ensures GrantOk(s', g)
  {
    if g.Refreshed? {
      HasSuccessorStable(s, s', g.presented);
    } else if g.SignedIn? {
      HasRootStable(s, s', g.session, g.scope);
    }
  }

  lemma PurposeStable(s: State, s': State, sid: nat, why: Purpose)
    requires Grows(s, s') && PurposeOk(s, sid, why)
    ensures PurposeOk(s', sid, why)
  {
  }

  lemma ProcStable(s: State, s': State, p: Proc)
    requires Grows(s, s') && ProcOk(s, p)
    ensures ProcOk(s', p)
  {
    match p
    case GetCached(sid, why) => PurposeStable(s, s', sid, why);
    case SelectSession(sid, _, why) => PurposeStable(s, s', sid, why);
    case SetCached(sid, row, why) => PurposeStable(s, s', sid, why);
    case DelCached(sid, why) => PurposeStable(s, s', sid, why);
    case Resume(sid, found, why) => PurposeStable(s, s', sid, why);
    case PassSession(_, seen) => PassedStable(s, s', seen.session);
    case _ =>
  }
}
