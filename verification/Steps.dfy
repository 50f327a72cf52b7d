/** Each statement, one lemma per program counter, then every event. */
module Steps {
  import opened Basics
  import opened Scopes
  import opened Tables
  import opened Machine
  import opened Invariant
  import opened Preservation

  // Statements that create no claim

  lemma OnlyCode(s: State, form: CodeForm, code: nat)
    requires UniqueHashes(s) && code < |s.codes| && s.codes[code].hash == Sha256(form.code)
    ensures forall c :: 0 <= c < |s.codes| && s.codes[c].hash == Sha256(form.code) ==> c == code
  {
  }

  lemma OnSelectKnown(s: State, r: nat, hash: Text)
    requires r in s.procs && s.procs[r] == SelectKnown(hash) && ProcOk(s, s.procs[r])
    ensures Quiet(s, DoSelectKnown(s, r, hash), r)
  {
    var known := TokenByHash(s.tokens, hash);
    LocalQuiet(s, r, if known.None? then None else Some(RevokeReusedFamily(known.value, s.tokens[known.value])));
  }

  lemma OnRevokeReusedFamily(s: State, r: nat, known: nat, row: TokenRow)
    requires r in s.procs && s.procs[r] == RevokeReusedFamily(known, row) && ProcOk(s, s.procs[r])
    ensures Quiet(s, DoRevokeReusedFamily(s, r, known, row), r)
  {
    RevokeQuiet(s, r, OfFamily(row.family), Some(RevokeReusedSession(known, row)));
  }

  lemma OnRevokeReusedSession(s: State, r: nat, known: nat, row: TokenRow)
    requires r in s.procs && s.procs[r] == RevokeReusedSession(known, row) && ProcOk(s, s.procs[r])
    ensures Quiet(s, DoRevokeReusedSession(s, r, row), r)
  {
    CloseQuiet(s, r, ById(row.session), None);
  }

  lemma OnRevokeByToken(s: State, r: nat, hash: Text)
    requires r in s.procs && s.procs[r] == RevokeByToken(hash) && ProcOk(s, s.procs[r])
    ensures Quiet(s, DoRevokeByToken(s, r, hash), r)
  {
    RevokeQuiet(s, r, WithHash(hash), None);
  }

  lemma OnRevokePresented(s: State, r: nat, hash: Text, sid: Option<nat>)
    requires r in s.procs && s.procs[r] == RevokePresented(hash, sid) && ProcOk(s, s.procs[r])
    ensures Quiet(s, DoRevokePresented(s, r, hash, sid), r)
  {
    RevokeQuiet(s, r, WithHash(hash), None);
    if sid.Some? {
      RevokeQuiet(s, r, WithHash(hash), Some(EndSession(sid.value, None)));
    }
  }

  lemma OnGetCached(s: State, r: nat, sid: nat, why: Purpose)
    requires r in s.procs && s.procs[r] == GetCached(sid, why) && ProcOk(s, s.procs[r])
    requires sid in s.cache ==> Snapshot(s.sessions, sid, s.cache[sid])
    ensures Quiet(s, DoGetCached(s, r, sid, why), r)
  {
    if sid in s.cache && s.cache[sid].status != Open {
      LocalQuiet(s, r, Some(Resume(sid, Some(s.cache[sid]), why)));
    } else {
      LocalQuiet(s, r, Some(SelectSession(sid, sid in s.cache, why)));
    }
  }

  lemma OnSelectSession(s: State, r: nat, sid: nat, hit: bool, why: Purpose)
    requires r in s.procs && s.procs[r] == SelectSession(sid, hit, why) && ProcOk(s, s.procs[r])
    ensures Quiet(s, DoSelectSession(s, r, sid, hit, why), r)
  {
    LocalQuiet(s, r, Some(SetCached(sid, s.sessions[sid], why)));
  }

  lemma OnSetCached(s: State, r: nat, sid: nat, row: SessionRow, why: Purpose)
    requires r in s.procs && s.procs[r] == SetCached(sid, row, why) && ProcOk(s, s.procs[r])
    ensures Quiet(s, DoSetCached(s, r, sid, row, why), r)
  {
    RedisQuiet(s, r, s.cache[sid := row], s.challenges, s.challengeIds, Some(Resume(sid, Some(row), why)));
  }

  lemma OnDelCached(s: State, r: nat, sid: nat, why: Purpose)
    requires r in s.procs && s.procs[r] == DelCached(sid, why) && ProcOk(s, s.procs[r])
    ensures Quiet(s, DoDelCached(s, r, sid, why), r)
  {
    RedisQuiet(s, r, s.cache - {sid}, s.challenges, s.challengeIds, Some(Resume(sid, None, why)));
  }

  lemma OnEndSession(s: State, r: nat, sid: nat, refresh: Option<Text>)
    requires r in s.procs && s.procs[r] == EndSession(sid, refresh) && ProcOk(s, s.procs[r])
    ensures Quiet(s, DoEndSession(s, r, sid, refresh), r)
  {
    CloseQuiet(s, r, ById(sid), Some(EndSessionTokens(sid, refresh)));
  }

  lemma OnEndSessionTokens(s: State, r: nat, sid: nat, refresh: Option<Text>)
    requires r in s.procs && s.procs[r] == EndSessionTokens(sid, refresh) && ProcOk(s, s.procs[r])
    ensures Quiet(s, DoEndSessionTokens(s, r, sid, refresh), r)
  {
    RevokeQuiet(s, r, ActiveOfSession(sid), Some(DelSession(sid, refresh)));
  }

  lemma OnDelSession(s: State, r: nat, sid: nat, refresh: Option<Text>)
    requires r in s.procs && s.procs[r] == DelSession(sid, refresh) && ProcOk(s, s.procs[r])
    ensures Quiet(s, DoDelSession(s, r, sid, refresh), r)
  {
    RedisQuiet(s, r, s.cache - {sid}, s.challenges, s.challengeIds,
      if refresh.None? then None else Some(RevokeByToken(refresh.value)));
  }

  lemma OnEndUserSessions(s: State, r: nat, user: nat)
    requires r in s.procs && s.procs[r] == EndUserSessions(user) && ProcOk(s, s.procs[r])
    ensures Quiet(s, DoEndUserSessions(s, r, user), r)
  {
    CloseQuiet(s, r, ByUser(user), Some(EndUserTokens(user)));
  }

  lemma OnEndUserTokens(s: State, r: nat, user: nat)
    requires r in s.procs && s.procs[r] == EndUserTokens(user) && ProcOk(s, s.procs[r])
    ensures Quiet(s, DoEndUserTokens(s, r, user), r)
  {
    RevokeQuiet(s, r, OfUser(user), Some(DelAllSessions));
  }

  lemma OnDelAllSessions(s: State, r: nat, swept: set<nat>)
    requires r in s.procs && s.procs[r] == DelAllSessions && ProcOk(s, s.procs[r])
    ensures Quiet(s, DoDelAllSessions(s, r, swept), r)
  {
    RedisQuiet(s, r, s.cache - swept, s.challenges, s.challengeIds, None);
  }

  lemma OnSetChallenge(s: State, r: nat, user: nat, sid: nat, id: nat)
    requires r in s.procs && s.procs[r] == SetChallenge(user, sid) && ProcOk(s, s.procs[r])
    ensures Quiet(s, DoSetChallenge(s, r, user, sid, id), r)
  {
    LocalQuiet(s, r, Some(s.procs[r]));
    assert s == Goto(s, r, s.procs[r]);
    if id !in s.challengeIds {
      RedisQuiet(s, r, s.cache, s.challenges[id := Challenge(user, sid, 0)], s.challengeIds + {id}, None);
    }
  }

  lemma OnGetChallenge(s: State, r: nat, id: nat)
    requires r in s.procs && s.procs[r] == GetChallenge(id) && ProcOk(s, s.procs[r])
    requires id in s.challenges ==> ChallengeOk(s, s.challenges[id])
    ensures Quiet(s, DoGetChallenge(s, r, id), r)
  {
    if id in s.challenges {
      LocalQuiet(s, r,
        Some(if s.challenges[id].attempts >= MAX_MFA_ATTEMPTS then DropChallenge(id)
             else CheckCode(id, s.challenges[id])));
    } else {
      LocalQuiet(s, r, None);
    }
  }

  lemma OnDropChallenge(s: State, r: nat, id: nat)
    requires r in s.procs && s.procs[r] == DropChallenge(id) && ProcOk(s, s.procs[r])
    ensures Quiet(s, DoDropChallenge(s, r, id), r)
  {
    RedisQuiet(s, r, s.cache, s.challenges - {id}, s.challengeIds, None);
  }

  lemma OnCheckCode(s: State, r: nat, id: nat, seen: Challenge, ok: bool)
    requires r in s.procs && s.procs[r] == CheckCode(id, seen) && ProcOk(s, s.procs[r])
    ensures Quiet(s, DoCheckCode(s, r, id, seen, ok), r)
  {
    var s' := DoCheckCode(s, r, id, seen, ok);
    assert Grows(s, s');
    if ok {
      assert s'.checks[|s.checks|] == Check(id, seen.session, true);
    }
  }

  lemma OnSetAttempts(s: State, r: nat, id: nat, seen: Challenge)
    requires r in s.procs && s.procs[r] == SetAttempts(id, seen) && ProcOk(s, s.procs[r])
    ensures Quiet(s, DoSetAttempts(s, r, id, seen), r)
  {
    RedisQuiet(s, r, s.cache, s.challenges[id := seen.(attempts := seen.attempts + 1)], s.challengeIds, None);
  }

  lemma OnPassSession(s: State, r: nat, id: nat, seen: Challenge)
    requires r in s.procs && s.procs[r] == PassSession(id, seen) && ProcOk(s, s.procs[r])
    requires SessionOk(s, seen.session, s.sessions[seen.session])
    ensures Quiet(s, DoPassSession(s, r, id, seen), r)
  {
    var s' := DoPassSession(s, r, id, seen);
    assert Grows(s, s');
    assert forall j :: 0 <= j < |s.sessions| && j != seen.session ==> s'.sessions[j] == s.sessions[j];
    assert SessionOk(s, seen.session, s.sessions[seen.session]);
    assert SessionOk(s', seen.session, s'.sessions[seen.session]);
  }

  lemma OnDelChallenge(s: State, r: nat, id: nat, seen: Challenge)
    requires r in s.procs && s.procs[r] == DelChallenge(id, seen) && ProcOk(s, s.procs[r])
    ensures Quiet(s, DoDelChallenge(s, r, id, seen), r)
  {
    RedisQuiet(s, r, s.cache, s.challenges - {id}, s.challengeIds, Some(GetCached(seen.session, ForMfa(id))));
  }

  lemma OnSelectAuthorizingClient(s: State, r: nat, f: AuthorizeForm, ok: bool)
    requires r in s.procs && s.procs[r] == SelectAuthorizingClient(f) && ProcOk(s, s.procs[r])
    ensures Quiet(s, DoSelectAuthorizingClient(s, r, f, ok), r)
  {
    LocalQuiet(s, r, None);
    if f.client < |s.clients| && MayAuthorize(s.clients[f.client], f) {
      LocalQuiet(s, r, Some(InsertCode(f, f.user.value)));
    }
  }

  /** What the peek does with its reading. */
  function AfterPeek(s: State, client: nat, form: CodeForm): Option<Proc> {
    match ReadCode(s.codes, s.now, client, form)
    case Unusable => None
    case Replayed(c) => Some(RevokeReplayed(c, s.codes[c].user, client))
    case Usable(c) =>
      if Matches(form.verifier, s.codes[c].challenge, s.codes[c].codeMethod) then Some(SelectCode(client, form, c))
      else None
  }

  lemma PeekMoves(s: State, r: nat, client: nat, form: CodeForm)
    ensures DoPeekCode(s, r, client, form) == Then(s, r, AfterPeek(s, client, form))
  {
  }

  lemma OnPeekCode(s: State, r: nat, client: nat, form: CodeForm)
    requires r in s.procs && s.procs[r] == PeekCode(client, form) && ProcOk(s, s.procs[r])
    ensures Quiet(s, DoPeekCode(s, r, client, form), r)
  {
    PeekMoves(s, r, client, form);
    LocalQuiet(s, r, AfterPeek(s, client, form));
  }

  /** What consume does with its reading. */
  function AfterSelect(s: State, client: nat, form: CodeForm): Option<Proc> {
    match ReadCode(s.codes, s.now, client, form)
    case Unusable => None
    case Replayed(c) => Some(RevokeReplayed(c, s.codes[c].user, client))
    case Usable(c) => Some(ConsumeCode(client, form, c))
  }

  lemma SelectMoves(s: State, r: nat, client: nat, form: CodeForm)
    ensures DoSelectCode(s, r, client, form) == Then(s, r, AfterSelect(s, client, form))
  {
  }

  lemma OnSelectCode(s: State, r: nat, client: nat, form: CodeForm, peeked: nat)
    requires r in s.procs && s.procs[r] == SelectCode(client, form, peeked) && ProcOk(s, s.procs[r])
    requires UniqueHashes(s)
    ensures Quiet(s, DoSelectCode(s, r, client, form), r)
  {
    OnlyCode(s, form, peeked);
    SelectMoves(s, r, client, form);
    LocalQuiet(s, r, AfterSelect(s, client, form));
  }

  lemma OnRevokeReplayed(s: State, r: nat, code: nat, user: nat, client: nat)
    requires r in s.procs && s.procs[r] == RevokeReplayed(code, user, client) && ProcOk(s, s.procs[r])
    ensures Quiet(s, DoRevokeReplayed(s, r, user, client), r)
  {
    RevokeQuiet(s, r, OfUserAndClient(user, client), None);
  }

  // Statements that create or pass on claims

  lemma OnUpdateRotated(s: State, r: nat, via: Endpoint, hash: Text)
    requires Inv(s) && r in s.procs && s.procs[r] == UpdateRotated(via, hash)
    ensures Good(s, DoUpdateRotated(s, r, via, hash))
  {
    var hit := Consumable(s.tokens, hash, s.now);
    if hit.None? {
      LocalQuiet(s, r, Some(SelectKnown(hash)));
      QuietStep(s, Goto(s, r, SelectKnown(hash)), r);
    } else {
      Rotation(s, r, via, hit.value);
    }
  }

  lemma Rotation(s: State, r: nat, via: Endpoint, i: nat)
    requires Inv(s) && r in s.procs && i < |s.tokens| && s.tokens[i].status == Active
    ensures var row := s.tokens[i].(status := Rotated);
      Good(s, Goto(s.(tokens := s.tokens[i := row]), r, InsertSuccessor(via, i, row)))
  {
    var row := s.tokens[i].(status := Rotated);
    var s' := Goto(s.(tokens := s.tokens[i := row]), r, InsertSuccessor(via, i, row));
    TokenRotated(s, r, via, i);
    forall x, c | Mine(s, r, x) && Holds(s', x, c)
      ensures x == Request(r) && Accounted(s, s', r, c)
    {
      if c.Slot? {
        assert Holds(s, Row(i), c) && !Holds(s', Row(i), c);
      }
    }
    BusyStep(s, s', r);
  }

  lemma TokenRotated(s: State, r: nat, via: Endpoint, i: nat)
    requires UniqueHashes(s) && r in s.procs && i < |s.tokens| && s.tokens[i].status == Active
    ensures var row := s.tokens[i].(status := Rotated);
      Sound(s, Goto(s.(tokens := s.tokens[i := row]), r, InsertSuccessor(via, i, row)), r)
  {
    var row := s.tokens[i].(status := Rotated);
    var s' := Goto(s.(tokens := s.tokens[i := row]), r, InsertSuccessor(via, i, row));
    assert Grows(s, s');
    assert forall k :: 0 <= k < |s.tokens| ==> s'.tokens[k].hash == s.tokens[k].hash;
  }

  /** An INSERT of a refresh token with a fresh hash. */
  lemma TokenInserted(s: State, r: nat, row: TokenRow, grants: seq<Grant>, p: Option<Proc>)
    requires UniqueHashes(s) && r in s.procs && |grants| <= 1
    requires RowOk(s, row) && LinkOk(s.tokens + [row], |s.tokens|) && row.status == Active
    requires forall i :: 0 <= i < |s.tokens| ==> s.tokens[i].hash != row.hash
    requires var s' := Then(s.(tokens := s.tokens + [row], grants := s.grants + grants), r, p);
      && (p.Some? ==> ProcOk(s', p.value))
      && (forall g :: g in grants ==> GrantOk(s', g))
    ensures var s' := Then(s.(tokens := s.tokens + [row], grants := s.grants + grants), r, p);
      Sound(s, s', r)
  {
    var s' := Then(s.(tokens := s.tokens + [row], grants := s.grants + grants), r, p);
    TokenInsertedGrows(s, s', row, grants);
    RowStable(s, s', row, row.status);
    assert s'.tokens[|s.tokens|] == row;
  }

  lemma TokenInsertedGrows(s: State, s': State, row: TokenRow, grants: seq<Grant>)
    requires s' == s.(tokens := s.tokens + [row], grants := s.grants + grants, procs := s'.procs)
    ensures Grows(s, s')
  {
  }

  lemma OnInsertSuccessor(s: State, r: nat, via: Endpoint, presented: nat, row: TokenRow, secret: Text)
    requires Inv(s) && r in s.procs && s.procs[r] == InsertSuccessor(via, presented, row)
    requires FreshSecret(s, secret)
    ensures Good(s, DoInsertSuccessor(s, r, via, presented, row, secret))
  {
    var next := Successor(presented, row, secret, s.now + REFRESH_TOKEN_TTL);
    var p := AfterRotation(via, presented, row, |s.tokens|);
    SuccessorInserted(s, r, via, presented, row, secret, next);
    Succeeds(s, r, next, p, presented);
  }

  lemma SuccessorInserted(s: State, r: nat, via: Endpoint, presented: nat, row: TokenRow, secret: Text, next: TokenRow)
    requires FreshSecret(s, secret) && next == Successor(presented, row, secret, s.now + REFRESH_TOKEN_TTL)
    ensures DoInsertSuccessor(s, r, via, presented, row, secret)
         == Goto(s.(tokens := s.tokens + [next]), r, AfterRotation(via, presented, row, |s.tokens|))
  {
  }

  lemma Succeeds(s: State, r: nat, next: TokenRow, p: Proc, presented: nat)
    requires Inv(s) && r in s.procs && s.procs[r].InsertSuccessor? && s.procs[r].presented == presented
    requires next == Successor(presented, s.procs[r].row, Raw(0), 0).(hash := next.hash, expiresAt := next.expiresAt)
    requires next.expiresAt == s.now + REFRESH_TOKEN_TTL
    requires forall i :: 0 <= i < |s.tokens| ==> s.tokens[i].hash != next.hash
    requires p == RevokeByToken(s.procs[r].row.hash)
      || (p == GetCached(next.session, ForRefresh(s.procs[r].via, presented, s.procs[r].row, |s.tokens|))
          && (s.procs[r].via.OAuthRefresh? ==> s.procs[r].row.client == Some(s.procs[r].via.client)))
    ensures Good(s, Goto(s.(tokens := s.tokens + [next]), r, p))
  {
    SuccessorFacts(s, r, next, p, presented);
    Succession(s, r, next, p, presented);
  }

  lemma SuccessorFacts(s: State, r: nat, next: TokenRow, p: Proc, presented: nat)
    requires Local(s) && r in s.procs && s.procs[r].InsertSuccessor? && s.procs[r].presented == presented
    requires next == Successor(presented, s.procs[r].row, Raw(0), 0).(hash := next.hash, expiresAt := next.expiresAt)
    requires next.expiresAt == s.now + REFRESH_TOKEN_TTL
    requires p == RevokeByToken(s.procs[r].row.hash)
      || (p == GetCached(next.session, ForRefresh(s.procs[r].via, presented, s.procs[r].row, |s.tokens|))
          && (s.procs[r].via.OAuthRefresh? ==> s.procs[r].row.client == Some(s.procs[r].via.client)))
    ensures RowOk(s, next) && LinkOk(s.tokens + [next], |s.tokens|) && next.family == s.procs[r].row.family
    ensures ProcOk(Goto(s.(tokens := s.tokens + [next]), r, p), p)
  {
    assert ProcOk(s, s.procs[r]) && RowOk(s, s.tokens[presented]);
  }

  lemma Succession(s: State, r: nat, next: TokenRow, p: Proc, presented: nat)
    requires Inv(s) && r in s.procs && s.procs[r].InsertSuccessor? && s.procs[r].presented == presented
    requires next.previous == Some(presented) && next.family == s.procs[r].row.family
    requires RowOk(s, next) && LinkOk(s.tokens + [next], |s.tokens|) && next.status == Active
    requires forall i :: 0 <= i < |s.tokens| ==> s.tokens[i].hash != next.hash
    requires p.RevokeByToken? || (p.GetCached? && p.why.ForRefresh? && p.why.presented == presented)
    requires ProcOk(Goto(s.(tokens := s.tokens + [next]), r, p), p)
    ensures Good(s, Goto(s.(tokens := s.tokens + [next]), r, p))
  {
    var s' := Goto(s.(tokens := s.tokens + [next]), r, p);
    assert s.grants + [] == s.grants;
    assert s' == Then(s.(tokens := s.tokens + [next], grants := s.grants + []), r, Some(p));
    TokenInserted(s, r, next, [], Some(p));
    forall x, c | Mine(s, r, x) && Holds(s', x, c)
      ensures Holds(s, Request(r), c) && x == (if c.Pay? then Request(r) else Row(|s.tokens|))
    {
      SuccessorClaims(s, r, next, p, presented, x, c);
    }
    BusyStep(s, s', r);
  }

  /** The successor takes over the slot and the succession; the request keeps the claim to be paid. */
  lemma SuccessorClaims(s: State, r: nat, next: TokenRow, p: Proc, presented: nat, x: Holder, c: Claim)
    requires Local(s) && r in s.procs && s.procs[r].InsertSuccessor? && s.procs[r].presented == presented
    requires next.previous == Some(presented) && next.family == s.procs[r].row.family
    requires p.RevokeByToken? || (p.GetCached? && p.why.ForRefresh? && p.why.presented == presented)
    requires Mine(s, r, x) && Holds(Goto(s.(tokens := s.tokens + [next]), r, p), x, c)
    ensures Holds(s, Request(r), c) && x == (if c.Pay? then Request(r) else Row(|s.tokens|))
  {
    assert ProcOk(s, s.procs[r]);
  }

  lemma OnInsertRoot(s: State, r: nat, sid: nat, user: nat, client: Option<nat>, origin: Origin, scope: string,
        c: Choice)
    requires Inv(s) && r in s.procs && s.procs[r] == InsertRoot(sid, user, client, origin, scope)
    requires FreshSecret(s, c.secret) && FreshFamily(s, c.id)
    ensures Good(s, DoInsertRoot(s, r, sid, user, client, scope, c))
  {
    var row := TokenRow(sid, user, client, Sha256(c.secret), c.id, None, scope, Active, s.now + REFRESH_TOKEN_TTL);
    RootFacts(s, r, row);
    RootInserted(s, r, sid, user, client, scope, c, row);
    Rooting(s, r, row);
  }

  lemma RootInserted(s: State, r: nat, sid: nat, user: nat, client: Option<nat>, scope: string, c: Choice,
        row: TokenRow)
    requires FreshSecret(s, c.secret) && FreshFamily(s, c.id)
    requires row == TokenRow(sid, user, client, Sha256(c.secret), c.id, None, scope, Active, s.now + REFRESH_TOKEN_TTL)
    ensures DoInsertRoot(s, r, sid, user, client, scope, c)
         == Finish(s.(tokens := s.tokens + [row], grants := s.grants + [SignedIn(r, row.session, row.scope)]), r)
  {
  }

  lemma RootFacts(s: State, r: nat, row: TokenRow)
    requires Local(s) && r in s.procs && s.procs[r].InsertRoot?
    requires var p := s.procs[r];
      && row.session == p.session && row.user == p.user && row.client == p.client && row.scope == p.scope
      && row.expiresAt <= s.now + REFRESH_TOKEN_TTL
    ensures RowOk(s, row) && SignInOk(s, row.session, row.scope)
  {
    assert ProcOk(s, s.procs[r]);
  }

  lemma Rooting(s: State, r: nat, row: TokenRow)
    requires Inv(s) && r in s.procs && s.procs[r].InsertRoot? && s.procs[r].session == row.session
    requires row.previous == None && row.status == Active && FreshFamily(s, row.family) && RowOk(s, row)
    requires SignInOk(s, row.session, row.scope)
    requires forall i :: 0 <= i < |s.tokens| ==> s.tokens[i].hash != row.hash
    ensures Good(s,
      Finish(s.(tokens := s.tokens + [row], grants := s.grants + [SignedIn(r, row.session, row.scope)]), r))
  {
    var g := SignedIn(r, row.session, row.scope);
    var s' := Finish(s.(tokens := s.tokens + [row], grants := s.grants + [g]), r);
    assert ProcOk(s, s.procs[r]);
    RootPaid(s, s', r, row);
    TokenInserted(s, r, row, [g], None);
    assert s' == Then(s.(tokens := s.tokens + [row], grants := s.grants + [g]), r, None);
    forall x, k | Mine(s, r, x) && Holds(s', x, k)
      ensures x == Row(|s.tokens|) && Accounted(s, s', r, k)
    {
      RootClaims(s, r, row, x, k);
    }
    BusyStep(s, s', r);
  }

  lemma RootPaid(s: State, s': State, r: nat, row: TokenRow)
    requires SignInOk(s, row.session, row.scope) && row.previous == None
    requires s'.tokens == s.tokens + [row] && s'.sessions == s.sessions && s'.codes == s.codes
    ensures GrantOk(s', SignedIn(r, row.session, row.scope))
  {
    assert s'.tokens[|s.tokens|] == row;
    assert HasRoot(s'.tokens, row.session, row.scope);
  }

  /** A root's family is new; being the root of its session was the request's claim. */
  lemma RootClaims(s: State, r: nat, row: TokenRow, x: Holder, k: Claim)
    requires r in s.procs && s.procs[r].InsertRoot? && ProcOk(s, s.procs[r])
    requires row.session == s.procs[r].session && row.previous == None && FreshFamily(s, row.family)
    requires var s' :=
      Finish(s.(tokens := s.tokens + [row], grants := s.grants + [SignedIn(r, row.session, row.scope)]), r);
      Mine(s, r, x) && Holds(s', x, k)
    ensures x == Row(|s.tokens|) && (!Existing(s, k) || Holds(s, Request(r), k))
  {
  }

  /** Returning an access token. */
  lemma TokenReturned(s: State, r: nat, g: Grant)
    requires Inv(s) && r in s.procs && GrantOk(s, g)
    requires g.Refreshed? ==> ProcHolds(s.procs[r], Pay(g.presented))
    ensures Good(s, Finish(s.(grants := s.grants + [g]), r))
  {
    var s' := Finish(s.(grants := s.grants + [g]), r);
    GrantAdded(s, r, g);
    forall x, c | Mine(s, r, x) && Holds(s', x, c)
      ensures x == Granted(|s.grants|) && Holds(s, Request(r), c)
    {
    }
    BusyStep(s, s', r);
  }

  lemma GrantAdded(s: State, r: nat, g: Grant)
    requires UniqueHashes(s) && r in s.procs && GrantOk(s, g)
    ensures Sound(s, Finish(s.(grants := s.grants + [g]), r), r)
  {
    var s' := Finish(s.(grants := s.grants + [g]), r);
    assert Grows(s, s');
    GrantStable(s, s', g);
    assert s'.grants[|s.grants|] == g;
  }

  /** A step that only moves its request on. */
  lemma MovesOn(s: State, r: nat, p: Option<Proc>)
    requires Inv(s) && MayContinue(s, r, p)
    ensures Good(s, Then(s, r, p))
  {
    LocalQuiet(s, r, p);
    QuietStep(s, Then(s, r, p), r);
  }

  lemma ResumeRefused(s: State, r: nat, family: nat)
    requires Inv(s) && r in s.procs
    ensures Good(s, Finish(s.(tokens := RevokeTokens(s.tokens, OfFamily(family))), r))
  {
    RevokeQuiet(s, r, OfFamily(family), None);
    QuietStep(s, Then(s.(tokens := RevokeTokens(s.tokens, OfFamily(family))), r, None), r);
  }

  lemma ResumePaid(s: State, r: nat, scope: string)
    requires Inv(s) && r in s.procs && s.procs[r].Resume? && s.procs[r].why.ForRefresh?
    requires ScopeGranted(s.procs[r].why.via, s.procs[r].why.row.scope, scope)
    ensures var why := s.procs[r].why;
      Good(s, Finish(s.(grants := s.grants + [Refreshed(r, why.via, why.presented, why.row.session, scope)]), r))
  {
    var why := s.procs[r].why;
    assert ProcOk(s, s.procs[r]);
    assert HasSuccessor(s.tokens, why.presented);
    TokenReturned(s, r, Refreshed(r, why.via, why.presented, why.row.session, scope));
  }

  lemma ResumeMfa(s: State, r: nat, sid: nat, found: Option<SessionRow>, why: Purpose, admin: bool)
    requires Inv(s) && r in s.procs && s.procs[r] == Resume(sid, found, why) && why.ForMfa?
    ensures Good(s, DoResume(s, r, found, sid, why, admin))
  {
    assert ProcOk(s, s.procs[r]) && SessionOk(s, sid, s.sessions[sid]);
    if found.None? || found.value.status != Open {
      MovesOn(s, r, None);
    } else {
      MovesOn(s, r, Some(InsertRoot(sid, found.value.user, None, found.value.origin, DefaultScope(admin))));
    }
  }

  lemma OnResume(s: State, r: nat, sid: nat, found: Option<SessionRow>, why: Purpose, admin: bool)
    requires Inv(s) && r in s.procs && s.procs[r] == Resume(sid, found, why)
    ensures Good(s, DoResume(s, r, found, sid, why, admin))
  {
    if why.ForMfa? {
      ResumeMfa(s, r, sid, found, why, admin);
    } else if found.None? || found.value.status != Open {
      ResumeRefused(s, r, why.row.family);
    } else if why.via.AuthRefresh? {
      ResumePaid(s, r, why.row.scope);
    } else if !NarrowingAllowed(why.row.scope, why.via.requested) {
      MovesOn(s, r, None);
    } else {
      NarrowedNeverGrows(why.row.scope, why.via.requested);
      ResumePaid(s, r, Narrowed(why.row.scope, why.via.requested));
    }
  }

  lemma ClientTokenReturned(s: State, r: nat, client: nat, scope: string)
    requires Inv(s) && r in s.procs && client < |s.clients|
    requires s.clients[client].confidential && s.clients[client].clientCredentials && !s.clients[client].noSecretAuth
    requires Words(scope) != [] && Within(Words(scope), s.clients[client].allowedScopes)
    ensures Good(s, Finish(s.(grants := s.grants + [ClientToken(client, Join(Words(scope)))]), r))
  {
    SplitJoin(Words(scope));
    TokenReturned(s, r, ClientToken(client, Join(Words(scope))));
  }

  lemma OnSelectClient(s: State, r: nat, client: nat, secret: Option<Text>, grant: TokenForm)
    requires Inv(s) && r in s.procs && s.procs[r] == SelectClient(client, secret, grant)
    ensures Good(s, DoSelectClient(s, r, client, secret, grant))
  {
    MovesOn(s, r, None);
    if client < |s.clients| {
      match grant
      case CodeGrant(form) => MovesOn(s, r, Some(PeekCode(client, form)));
      case RefreshGrant(token, scope) => MovesOn(s, r, Some(UpdateRotated(OAuthRefresh(client, scope), Sha256(token))));
      case CredentialsGrant(scope) =>
        if MayUseCredentials(s.clients[client], secret, scope) {
          ClientTokenReturned(s, r, client, scope);
        }
    }
  }

  lemma SessionInserted(s: State, r: nat, row: SessionRow, p: Proc)
    requires UniqueHashes(s) && r in s.procs
    requires var s' := Goto(s.(sessions := s.sessions + [row]), r, p);
      SessionOk(s', |s.sessions|, row) && ProcOk(s', p)
    ensures Sound(s, Goto(s.(sessions := s.sessions + [row]), r, p), r)
  {
    var s' := Goto(s.(sessions := s.sessions + [row]), r, p);
    assert Grows(s, s');
    assert s'.sessions[|s.sessions|] == row;
  }

  /** What follows the INSERT of a session: its challenge or its first token. */
  function AfterSession(s: State, user: nat, client: Option<nat>, origin: Origin, scope: string, admin: bool): Proc {
    match origin
    case SecondFactor(_) => SetChallenge(user, |s.sessions|)
    case Password(_) => InsertRoot(|s.sessions|, user, client, origin, DefaultScope(admin))
    case FromCode(_) => InsertRoot(|s.sessions|, user, client, origin, scope)
  }

  lemma SessionMoves(s: State, r: nat, user: nat, client: Option<nat>, origin: Origin, scope: string, admin: bool)
    ensures DoInsertSession(s, r, user, client, origin, scope, admin)
         == Goto(s.(sessions := s.sessions + [SessionRow(user, client, origin, origin.FromCode?, Open)]), r,
                 AfterSession(s, user, client, origin, scope, admin))
  {
  }

  lemma OnInsertSession(s: State, r: nat, user: nat, client: Option<nat>, origin: Origin, scope: string, admin: bool)
    requires Inv(s) && r in s.procs && s.procs[r] == InsertSession(user, client, origin, scope)
    ensures Good(s, DoInsertSession(s, r, user, client, origin, scope, admin))
  {
    var row, p :=
      SessionRow(user, client, origin, origin.FromCode?, Open), AfterSession(s, user, client, origin, scope, admin);
    SessionMoves(s, r, user, client, origin, scope, admin);
    assert ProcOk(s, s.procs[r]);
    Opening(s, r, row, p);
  }

  lemma Opening(s: State, r: nat, row: SessionRow, p: Proc)
    requires Inv(s) && r in s.procs && s.procs[r].InsertSession? && row.origin == s.procs[r].origin
    requires p.SetChallenge? || (p.InsertRoot? && p.session == |s.sessions| && p.origin == row.origin)
    requires var s' := Goto(s.(sessions := s.sessions + [row]), r, p);
      SessionOk(s', |s.sessions|, row) && ProcOk(s', p)
    ensures Good(s, Goto(s.(sessions := s.sessions + [row]), r, p))
  {
    var s' := Goto(s.(sessions := s.sessions + [row]), r, p);
    SessionInserted(s, r, row, p);
    forall x, c | Mine(s, r, x) && Holds(s', x, c)
      ensures x == (if c.CodeUse? then Session(|s.sessions|) else Request(r)) && Accounted(s, s', r, c)
    {
      SessionClaims(s, r, row, p, x, c);
    }
    BusyStep(s, s', r);
  }

  lemma SessionClaims(s: State, r: nat, row: SessionRow, p: Proc, x: Holder, c: Claim)
    requires r in s.procs && s.procs[r].InsertSession? && row.origin == s.procs[r].origin
    requires p.SetChallenge? || (p.InsertRoot? && p.session == |s.sessions| && p.origin == row.origin)
    requires Mine(s, r, x) && Holds(Goto(s.(sessions := s.sessions + [row]), r, p), x, c)
    ensures x == (if c.CodeUse? then Session(|s.sessions|) else Request(r))
    ensures Accounted(s, Goto(s.(sessions := s.sessions + [row]), r, p), r, c)
  {
    if c.CodeUse? {
      assert Holds(s, Request(r), c);
    }
  }

  lemma CodeInserted(s: State, r: nat, row: CodeRow)
    requires UniqueHashes(s) && r in s.procs && CodeOk(s, row)
    requires forall i :: 0 <= i < |s.codes| ==> s.codes[i].hash != row.hash
    ensures Sound(s, Finish(s.(codes := s.codes + [row]), r), r)
  {
    var s' := Finish(s.(codes := s.codes + [row]), r);
    assert Grows(s, s');
    assert s'.codes[|s.codes|] == row;
  }

  lemma OnInsertCode(s: State, r: nat, f: AuthorizeForm, owner: nat, secret: Text)
    requires Inv(s) && r in s.procs && s.procs[r] == InsertCode(f, owner) && FreshSecret(s, secret)
    ensures Good(s, DoInsertCode(s, r, f, owner, secret))
  {
    var s' := DoInsertCode(s, r, f, owner, secret);
    assert ProcOk(s, s.procs[r]);
    CodeInserted(s, r, s'.codes[|s.codes|]);
    assert forall x, c :: Mine(s, r, x) ==> !Holds(s', x, c);
    BusyStep(s, s', r);
  }

  lemma CodeConsumed(s: State, r: nat, code: nat, used: CodeRow, p: Proc)
    requires UniqueHashes(s) && r in s.procs && code < |s.codes|
    requires CodeGrows(s.codes[code], used) && CodeOk(s, used)
    requires ProcOk(Goto(s.(codes := s.codes[code := used]), r, p), p)
    ensures Sound(s, Goto(s.(codes := s.codes[code := used]), r, p), r)
  {
    var s' := Goto(s.(codes := s.codes[code := used]), r, p);
    CodeConsumedGrows(s, s', code, used);
    assert forall i :: 0 <= i < |s.codes| ==> s'.codes[i].hash == s.codes[i].hash;
  }

  lemma CodeConsumedGrows(s: State, s': State, code: nat, used: CodeRow)
    requires code < |s.codes| && CodeGrows(s.codes[code], used)
    requires s' == s.(codes := s.codes[code := used], procs := s'.procs)
    ensures Grows(s, s')
  {
  }

  lemma MayConsume(s: State, r: nat, client: nat, form: CodeForm, code: nat)
    requires Inv(s) && r in s.procs && s.procs[r] == ConsumeCode(client, form, code)
    ensures code < |s.codes|
    ensures s.codes[code].consumed.Some? ==> ProcOk(s, RevokeReplayed(code, s.codes[code].user, client))
    ensures s.codes[code].consumed.None? ==>
      CodeOk(s, s.codes[code].(consumed := Some(Presented(client, form.redirect, form.verifier))))
  {
    assert ProcOk(s, s.procs[r]) && CodeOk(s, s.codes[code]);
  }

  lemma MaySignIn(s: State, r: nat, code: nat, used: CodeRow, p: Proc)
    requires code < |s.codes| && used.consumed.Some?
    requires p == InsertSession(used.user, Some(used.client), FromCode(code), used.scope)
    ensures ProcOk(Goto(s.(codes := s.codes[code := used]), r, p), p)
  {
  }

  lemma OnConsumeCode(s: State, r: nat, client: nat, form: CodeForm, code: nat)
    requires Inv(s) && r in s.procs && s.procs[r] == ConsumeCode(client, form, code)
    ensures Good(s, DoConsumeCode(s, r, client, form, code))
  {
    MayConsume(s, r, client, form, code);
    if s.codes[code].consumed.Some? {
      var p := RevokeReplayed(code, s.codes[code].user, client);
      LocalQuiet(s, r, Some(p));
      QuietStep(s, Then(s, r, Some(p)), r);
    } else {
      var row := s.codes[code];
      var used := row.(consumed := Some(Presented(client, form.redirect, form.verifier)));
      MaySignIn(s, r, code, used, InsertSession(row.user, Some(client), FromCode(code), row.scope));
      Exchange(s, r, code, used, InsertSession(row.user, Some(client), FromCode(code), row.scope));
    }
  }

  lemma Exchange(s: State, r: nat, code: nat, used: CodeRow, p: Proc)
    requires Inv(s) && r in s.procs && code < |s.codes| && s.codes[code].consumed.None? && used.consumed.Some?
    requires CodeGrows(s.codes[code], used) && CodeOk(s, used)
    requires p.InsertSession? && p.origin == FromCode(code)
    requires ProcOk(Goto(s.(codes := s.codes[code := used]), r, p), p)
    ensures Good(s, Goto(s.(codes := s.codes[code := used]), r, p))
  {
    var s' := Goto(s.(codes := s.codes[code := used]), r, p);
    CodeConsumed(s, r, code, used, p);
    assert forall x, c :: Mine(s, r, x) && Holds(s', x, c) ==> x == Request(r) && c == CodeUse(code);
    BusyStep(s, s', r);
  }

  lemma ResetUsed(s: State, r: nat, reset: nat)
    requires UniqueHashes(s) && r in s.procs && reset < |s.resets|
    ensures var row := s.resets[reset];
      Sound(s, Goto(s.(resets := s.resets[reset := row.(used := true)]), r, SetPassword(reset, row.user)), r)
  {
    var row := s.resets[reset];
    var s' := Goto(s.(resets := s.resets[reset := row.(used := true)]), r, SetPassword(reset, row.user));
    assert Grows(s, s');
    assert forall i :: 0 <= i < |s.resets| ==> s'.resets[i].hash == s.resets[i].hash;
  }

  lemma ResetUsedGood(s: State, r: nat, hash: Text, reset: nat)
    requires Inv(s) && r in s.procs && s.procs[r].UseReset? && Redeemable(s.resets, hash, s.now) == Some(reset)
    ensures var row := s.resets[reset];
      Good(s, Goto(s.(resets := s.resets[reset := row.(used := true)]), r, SetPassword(reset, row.user)))
  {
    var row := s.resets[reset];
    var s' := Goto(s.(resets := s.resets[reset := row.(used := true)]), r, SetPassword(reset, row.user));
    ResetUsed(s, r, reset);
    assert forall x, c :: Mine(s, r, x) && Holds(s', x, c) ==> x == Request(r) && c == ResetUse(reset);
    BusyStep(s, s', r);
  }

  lemma OnUseReset(s: State, r: nat, hash: Text, policyOk: bool)
    requires Inv(s) && r in s.procs && s.procs[r] == UseReset(hash, policyOk)
    ensures Good(s, DoUseReset(s, r, hash, policyOk))
  {
    var hit := Redeemable(s.resets, hash, s.now);
    if !policyOk || hit.None? {
      LocalQuiet(s, r, None);
      QuietStep(s, Then(s, r, None), r);
    } else {
      ResetUsedGood(s, r, hash, hit.value);
    }
  }

  lemma OnSetPassword(s: State, r: nat, reset: nat, user: nat)
    requires Inv(s) && r in s.procs && s.procs[r] == SetPassword(reset, user)
    ensures Good(s, DoSetPassword(s, r, reset, user))
  {
    var s' := DoSetPassword(s, r, reset, user);
    PasswordSetSound(s, r, reset, user);
    forall x, c | Mine(s, r, x) && Holds(s', x, c)
      ensures x == Changed(|s.changes|) && Holds(s, Request(r), c)
    {
    }
    BusyStep(s, s', r);
  }

  lemma PasswordSetSound(s: State, r: nat, reset: nat, user: nat)
    requires Inv(s) && r in s.procs && s.procs[r] == SetPassword(reset, user)
    ensures Sound(s, DoSetPassword(s, r, reset, user), r)
  {
    var s' := DoSetPassword(s, r, reset, user);
    assert ProcOk(s, s.procs[r]);
    assert Grows(s, s');
    assert NewOk(s, s', r);
  }

  // Every event

  lemma RevokingStep(s: State, r: nat, p: Proc, c: Choice)
    requires r in s.procs && s.procs[r] == p && Revoking(p) && ProcOk(s, s.procs[r])
    ensures Quiet(s, StepRevoking(s, r, p, c), r)
  {
    match p
    case SelectKnown(hash) => OnSelectKnown(s, r, hash);
    case RevokeReusedFamily(known, row) => OnRevokeReusedFamily(s, r, known, row);
    case RevokeReusedSession(known, row) => OnRevokeReusedSession(s, r, known, row);
    case RevokeByToken(hash) => OnRevokeByToken(s, r, hash);
    case RevokePresented(hash, sid) => OnRevokePresented(s, r, hash, sid);
    case RevokeReplayed(code, user, client) => OnRevokeReplayed(s, r, code, user, client);
  }

  lemma EndingStep(s: State, r: nat, p: Proc, c: Choice)
    requires r in s.procs && s.procs[r] == p && Ending(p) && ProcOk(s, s.procs[r])
    ensures Quiet(s, StepEnding(s, r, p, c), r)
  {
    match p
    case EndSession(sid, refresh) => OnEndSession(s, r, sid, refresh);
    case EndSessionTokens(sid, refresh) => OnEndSessionTokens(s, r, sid, refresh);
    case DelSession(sid, refresh) => OnDelSession(s, r, sid, refresh);
    case EndUserSessions(user) => OnEndUserSessions(s, r, user);
    case EndUserTokens(user) => OnEndUserTokens(s, r, user);
    case DelAllSessions => OnDelAllSessions(s, r, c.swept);
  }

  lemma FindingStep(s: State, r: nat, p: Proc, c: Choice)
    requires Inv(s) && r in s.procs && s.procs[r] == p && Finding(p)
    ensures Quiet(s, StepFinding(s, r, p, c), r)
  {
    assert ProcOk(s, s.procs[r]);
    match p
    case GetCached(sid, why) => OnGetCached(s, r, sid, why);
    case SelectSession(sid, hit, why) => OnSelectSession(s, r, sid, hit, why);
    case SetCached(sid, row, why) => OnSetCached(s, r, sid, row, why);
    case DelCached(sid, why) => OnDelCached(s, r, sid, why);
  }

  lemma ChallengingStep(s: State, r: nat, p: Proc, c: Choice)
    requires Inv(s) && r in s.procs && s.procs[r] == p && Challenging(p)
    ensures Quiet(s, StepChallenging(s, r, p, c), r)
  {
    assert ProcOk(s, s.procs[r]);
    if p.PassSession? || p.DelChallenge? {
      PassingStep(s, r, p, c);
    } else {
      AttemptStep(s, r, p, c);
    }
  }

  lemma PassingStep(s: State, r: nat, p: Proc, c: Choice)
    requires Inv(s) && r in s.procs && s.procs[r] == p && (p.PassSession? || p.DelChallenge?) && ProcOk(s, s.procs[r])
    ensures Quiet(s, StepChallenging(s, r, p, c), r)
  {
    match p
    case PassSession(id, seen) => OnPassSession(s, r, id, seen);
    case DelChallenge(id, seen) => OnDelChallenge(s, r, id, seen);
  }

  lemma AttemptStep(s: State, r: nat, p: Proc, c: Choice)
    requires Inv(s) && r in s.procs && s.procs[r] == p && Challenging(p) && !p.PassSession? && !p.DelChallenge?
    requires ProcOk(s, s.procs[r])
    ensures Quiet(s, StepChallenging(s, r, p, c), r)
  {
    match p
    case SetChallenge(user, sid) => OnSetChallenge(s, r, user, sid, c.id);
    case GetChallenge(id) => OnGetChallenge(s, r, id);
    case DropChallenge(id) => OnDropChallenge(s, r, id);
    case CheckCode(id, seen) => OnCheckCode(s, r, id, seen, c.ok);
    case SetAttempts(id, seen) => OnSetAttempts(s, r, id, seen);
  }

  lemma AuthorizingStep(s: State, r: nat, p: Proc, c: Choice)
    requires Inv(s) && r in s.procs && s.procs[r] == p && Authorizing(p)
    ensures Quiet(s, StepAuthorizing(s, r, p, c), r)
  {
    assert ProcOk(s, s.procs[r]);
    match p
    case SelectAuthorizingClient(f) => OnSelectAuthorizingClient(s, r, f, c.ok);
    case PeekCode(client, form) => OnPeekCode(s, r, client, form);
    case SelectCode(client, form, peeked) => OnSelectCode(s, r, client, form, peeked);
  }

  lemma Unchanged(s: State)
    requires Inv(s)
    ensures Good(s, s)
  {
  }

  lemma RotatingStep(s: State, r: nat, p: Proc, c: Choice)
    requires Inv(s) && r in s.procs && s.procs[r] == p && Rotating(p)
    ensures Good(s, StepRotating(s, r, p, c))
  {
    Unchanged(s);
    match p
    case UpdateRotated(via, hash) => OnUpdateRotated(s, r, via, hash);
    case InsertSuccessor(via, presented, row) =>
      if FreshSecret(s, c.secret) { OnInsertSuccessor(s, r, via, presented, row, c.secret); }
    case Resume(sid, found, why) => OnResume(s, r, sid, found, why, c.ok);
    case SelectClient(client, secret, grant) => OnSelectClient(s, r, client, secret, grant);
  }

  lemma IssuingStep(s: State, r: nat, p: Proc, c: Choice)
    requires Inv(s) && r in s.procs && s.procs[r] == p && Issuing(p)
    ensures Good(s, StepIssuing(s, r, p, c))
  {
    Unchanged(s);
    match p
    case InsertRoot(sid, user, client, origin, scope) =>
      if FreshSecret(s, c.secret) && FreshFamily(s, c.id) { OnInsertRoot(s, r, sid, user, client, origin, scope, c); }
    case InsertSession(user, client, origin, scope) => OnInsertSession(s, r, user, client, origin, scope, c.ok);
    case InsertCode(f, owner) =>
      if FreshSecret(s, c.secret) { OnInsertCode(s, r, f, owner, c.secret); }
    case ConsumeCode(client, form, code) => OnConsumeCode(s, r, client, form, code);
    case UseReset(hash, policyOk) => OnUseReset(s, r, hash, policyOk);
    case SetPassword(reset, user) => OnSetPassword(s, r, reset, user);
  }

  lemma RevokingOrEndingStep(s: State, r: nat, p: Proc, c: Choice)
    requires Inv(s) && r in s.procs && s.procs[r] == p && (Revoking(p) || Ending(p))
    ensures if Revoking(p) then Quiet(s, StepRevoking(s, r, p, c), r) else Quiet(s, StepEnding(s, r, p, c), r)
  {
    assert ProcOk(s, s.procs[r]);
    if Revoking(p) {
      RevokingStep(s, r, p, c);
    } else {
      EndingStep(s, r, p, c);
    }
  }

  lemma StepGood(s: State, r: nat, p: Proc, s': State, c: Choice)
    requires Inv(s) && r in s.procs && s.procs[r] == p && s' == StepProc(s, r, p, c)
    ensures Good(s, s')
  {
    if Rotating(p) {
      RotatingStep(s, r, p, c);
    } else if !Revoking(p) && !Ending(p) && !Finding(p) && !Challenging(p) && !Authorizing(p) {
      IssuingStep(s, r, p, c);
    } else {
      if Revoking(p) || Ending(p) {
        RevokingOrEndingStep(s, r, p, c);
      } else if Finding(p) {
        FindingStep(s, r, p, c);
      } else if Challenging(p) {
        ChallengingStep(s, r, p, c);
      } else {
        AuthorizingStep(s, r, p, c);
      }
      QuietStep(s, s', r);
    }
  }

  lemma OnArrive(s: State, r: nat, p: Proc)
    requires Inv(s) && r !in s.procs && Initial(p)
    ensures Good(s, Goto(s, r, p))
  {
    var s' := Goto(s, r, p);
    assert ProcOk(s', p);
    assert forall c :: !ProcHolds(p, c);
    assert Quiet(s, s', r);
    QuietStep(s, s', r);
  }

  lemma OnEnvironment(s: State, s': State, r: nat)
    requires Inv(s)
    requires s'.now >= s.now && s'.procs == s.procs - {r}
    requires s'.cache.Keys <= s.cache.Keys
    requires (forall k {:trigger s'.cache[k]} :: k in s'.cache ==> s'.cache[k] == s.cache[k])
    requires s'.challenges.Keys <= s.challenges.Keys
    requires (forall k {:trigger s'.challenges[k]} :: k in s'.challenges ==> s'.challenges[k] == s.challenges[k])
    requires |s.clients| <= |s'.clients|
    requires forall i {:trigger s'.clients[i]} {:trigger s.clients[i]} ::
      0 <= i < |s.clients| ==> ClientGrows(s.clients[i], s'.clients[i])
    requires s' ==
      s.(now := s'.now, procs := s'.procs, cache := s'.cache, challenges := s'.challenges, clients := s'.clients)
    ensures Good(s, s')
  {
    assert Grows(s, s');
    assert s'.procs - {r} == s.procs - {r};
    assert Quiet(s, s', r);
    QuietStep(s, s', r);
  }

  lemma OnIssueReset(s: State, row: ResetRow, r: nat)
    requires Inv(s) && r !in s.procs && !row.used
    requires forall i :: 0 <= i < |s.resets| ==> s.resets[i].hash != row.hash
    ensures Good(s, s.(resets := s.resets + [row]))
  {
    var s' := s.(resets := s.resets + [row]);
    assert Sound(s, s', r) by {
      assert Grows(s, s');
    }
    assert forall x, c :: Mine(s, r, x) ==> !Holds(s', x, c);
    BusyStep(s, s', r);
  }

  lemma FreshRequest(m: map<nat, Proc>) returns (r: nat)
    ensures r !in m
  {
    r := Above(m.Keys);
  }

  ghost function Above(s: set<nat>): (b: nat)
    ensures forall x :: x in s ==> x < b
  {
    if s == {} then 0
    else
      var x :| x in s;
      var b := Above(s - {x});
      assert s == (s - {x}) + {x};
      if x < b then b else x + 1
  }

  lemma ClientsGood(s: State, clients: seq<ClientRow>)
    requires Inv(s) && |s.clients| <= |clients|
    requires forall i {:trigger clients[i]} {:trigger s.clients[i]} ::
      0 <= i < |s.clients| ==> ClientGrows(s.clients[i], clients[i])
    ensures Good(s, s.(clients := clients))
  {
    var unused := FreshRequest(s.procs);
    assert s.procs - {unused} == s.procs;
    OnEnvironment(s, s.(clients := clients), unused);
  }

  lemma LapseGood(s: State, s': State)
    requires Inv(s) && s'.now >= s.now
    requires s'.cache.Keys <= s.cache.Keys
    requires (forall k {:trigger s'.cache[k]} :: k in s'.cache ==> s'.cache[k] == s.cache[k])
    requires s'.challenges.Keys <= s.challenges.Keys
    requires (forall k {:trigger s'.challenges[k]} :: k in s'.challenges ==> s'.challenges[k] == s.challenges[k])
    requires s' == s.(now := s'.now, cache := s'.cache, challenges := s'.challenges)
    ensures Good(s, s')
  {
    var unused := FreshRequest(s.procs);
    assert s.procs - {unused} == s.procs;
    OnEnvironment(s, s', unused);
  }

  lemma EnvironmentGood(s: State, e: Event)
    requires Inv(s) && !e.Step? && !e.Arrive? && !e.IssueReset?
    ensures Good(s, Apply(s, e))
  {
    Unchanged(s);
    match e
    case Tick(t) => if t >= s.now { LapseGood(s, s.(now := t)); }
    case Abort(r) => OnEnvironment(s, Finish(s, r), r);
    case Evict(sid) => LapseGood(s, s.(cache := s.cache - {sid}));
    case ExpireChallenge(id) => LapseGood(s, s.(challenges := s.challenges - {id}));
    case _ => ClientEventGood(s, e);
  }

  lemma ClientEventGood(s: State, e: Event)
    requires Inv(s) && (e.Register? || e.Enable? || e.RotateSecret?)
    ensures Good(s, Apply(s, e))
  {
    ClientsWrittenIs(s, e);
    ClientsGood(s, ClientsWritten(s.clients, e));
  }

  /** The clients table after an administrator's change. */
  function ClientsWritten(clients: seq<ClientRow>, e: Event): seq<ClientRow> {
    match e
    case Register(client) => clients + [client]
    case Enable(id, on) => if id < |clients| then clients[id := clients[id].(enabled := on)] else clients
    case RotateSecret(id, hash) =>
      if id < |clients| then clients[id := clients[id].(secretHash := Some(hash))] else clients
    case _ => clients
  }

  lemma ClientsWrittenIs(s: State, e: Event)
    requires e.Register? || e.Enable? || e.RotateSecret?
    ensures Apply(s, e) == s.(clients := ClientsWritten(s.clients, e))
  {
  }

  lemma TakenGood(s: State, r: nat, c: Choice)
    requires Inv(s) && r in s.procs
    ensures Good(s, Apply(s, Step(r, c)))
  {
    StepGood(s, r, s.procs[r], Apply(s, Step(r, c)), c);
  }

  lemma ArrivalGood(s: State, r: nat, p: Proc)
    requires Inv(s)
    ensures Good(s, Apply(s, Arrive(r, p)))
  {
    if r !in s.procs && Initial(p) {
      OnArrive(s, r, p);
    } else {
      Unchanged(s);
    }
  }

  lemma ResetIssued(s: State, user: nat, secret: Text)
    requires FreshSecret(s, secret)
    ensures var row := ResetRow(user, Sha256(secret), s.now + PASSWORD_RESET_TTL, false);
      && Apply(s, IssueReset(user, secret)) == s.(resets := s.resets + [row])
      && forall i :: 0 <= i < |s.resets| ==> s.resets[i].hash != row.hash
  {
  }

  lemma IssueResetGood(s: State, user: nat, secret: Text)
    requires Inv(s)
    ensures Good(s, Apply(s, IssueReset(user, secret)))
  {
    if FreshSecret(s, secret) {
      var unused := FreshRequest(s.procs);
      ResetIssued(s, user, secret);
      OnIssueReset(s, ResetRow(user, Sha256(secret), s.now + PASSWORD_RESET_TTL, false), unused);
    } else {
      Unchanged(s);
    }
  }

  /** Every event keeps the invariant, lets tables only grow and revives no lapsed claim. */
  lemma EventGood(s: State, e: Event)
    requires Inv(s)
    ensures Good(s, Apply(s, e))
  {
    match e
    case Step(r, c) => if r in s.procs { TakenGood(s, r, c); } else { Unchanged(s); }
    case Arrive(r, p) => ArrivalGood(s, r, p);
    case IssueReset(user, secret) => IssueResetGood(s, user, secret);
    case _ => EnvironmentGood(s, e);
  }
}
