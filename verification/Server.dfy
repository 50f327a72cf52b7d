/**
 The shared state of the server as mutable fields, and one method for each statement the services
 execute against it. log is the history of every event so far; Valid says the fields are what the
 transition system reaches by it.
 */
module Server {
  import opened Basics
  import opened Scopes
  import opened Tables
  import opened Machine
  import opened Invariant
  import Families

  const ANY: Choice := Choice(Raw(0), 0, false, {})

  /** The clock, the challenge ids drawn so far, the requests in flight and the histories. */
  datatype Book = Book(
    now: int, challengeIds: set<nat>, procs: map<nat, Proc>, grants: seq<Grant>, checks: seq<Check>, changes: seq<nat>)

  /** The scope of a refreshed access token, if the request may have it. */
  function ScopeFor(via: Endpoint, stored: string): Option<string> {
    match via
    case AuthRefresh => Some(stored)
    case OAuthRefresh(_, requested) =>
      if NarrowingAllowed(stored, requested) then Some(Narrowed(stored, requested)) else None
  }

  /** What a revoking UPDATE does to the table: the rows that match are revoked, and the rest are as before. */
  ghost predicate RevokedJust(t: seq<TokenRow>, t': seq<TokenRow>, matching: TokenRow -> bool) {
    |t'| == |t| && forall k :: 0 <= k < |t| ==> t'[k] == if matching(t[k]) then t[k].(status := Revoked) else t[k]
  }

  ghost predicate ClosedJust(t: seq<SessionRow>, t': seq<SessionRow>, matching: (nat, SessionRow) -> bool) {
    |t'| == |t| && forall j :: 0 <= j < |t| ==> t'[j] == if matching(j, t[j]) then t[j].(status := Closed) else t[j]
  }

  /** The UNIQUE constraints hold in every recorded state. */
  lemma Unique(past: seq<State>, log: seq<Event>, s: State)
    requires Recorded(past, log, s)
    ensures UniqueHashes(s)
  {
    assert Reachable(s);
    Families.ReachableSound(s);
  }

  lemma FoundExactly(t: seq<TokenRow>, hash: Text)
    requires forall i, j :: 0 <= i < |t| && 0 <= j < |t| && t[i].hash == t[j].hash ==> i == j
    ensures forall i :: 0 <= i < |t| && t[i].hash == hash ==> TokenByHash(t, hash) == Some(i)
  {
  }

  /** The one row with a code's hash decides how the code is read. */
  lemma ReadExactly(codes: seq<CodeRow>, now: int, client: nat, form: CodeForm, i: nat)
    requires forall i, j :: 0 <= i < |codes| && 0 <= j < |codes| && codes[i].hash == codes[j].hash ==> i == j
    requires i < |codes| && codes[i].hash == Sha256(form.code)
    ensures ReadCode(codes, now, client, form) ==
      if codes[i].client != client || codes[i].redirect != form.redirect then Unusable
      else if codes[i].consumed.Some? then Replayed(i)
      else if codes[i].expiresAt < now then Unusable else Usable(i)
  {
    assert CodeByHash(codes, Sha256(form.code)) == Some(i);
  }

  class Database {
    var tokens: seq<TokenRow>
    var sessions: seq<SessionRow>
    var codes: seq<CodeRow>
    var clients: seq<ClientRow>
    var resets: seq<ResetRow>
    var cache: map<nat, SessionRow>
    var challenges: map<nat, Challenge>
    var book: Book
    ghost var log: seq<Event>
    ghost var past: seq<State>

    function View(): State
      reads this
    {
      State(book.now, tokens, sessions, codes, clients, resets, cache, challenges, book.challengeIds,
            book.procs, book.grants, book.checks, book.changes)
    }

    ghost predicate Valid()
      reads this
    {
      Recorded(past, log, View())
    }

    /** Request r is in flight, about to execute p. */
    ghost predicate At(r: nat, p: Proc)
      reads this
    {
      Valid() && r in book.procs && book.procs[r] == p
    }

    constructor ()
      ensures Valid() && View() == Init
    {
      tokens, sessions, codes, clients, resets, cache, challenges := [], [], [], [], [], map[], map[];
      book := Book(0, {}, map[], [], [], []);
      log, past := [], [Init];
    }

    method Become(s: State)
      modifies this`tokens, this`sessions, this`codes, this`clients, this`resets, this`cache, this`challenges, this`book
      ensures View() == s
    {
      tokens, sessions, codes, clients, resets := s.tokens, s.sessions, s.codes, s.clients, s.resets;
      cache, challenges := s.cache, s.challenges;
      book := Book(s.now, s.challengeIds, s.procs, s.grants, s.checks, s.changes);
    }

    ghost method Record(e: Event)
      requires |past| > 0 && Recorded(past, log, past[|past| - 1]) && View() == Apply(past[|past| - 1], e)
      modifies this`past, this`log
      ensures Valid() && log == old(log) + [e] && past == old(past) + [View()]
    {
      OneMore(past, log, e);
      log, past := log + [e], past + [View()];
    }

    /** An event of another request or of the environment. */
    method Happens(e: Event)
      requires Valid()
      modifies this
      ensures Valid() && log == old(log) + [e] && past == old(past) + [View()]
      ensures View() == Apply(old(View()), e)
    {
      Become(Apply(View(), e));
      Record(e);
    }

    /** Bookkeeping: request r will execute p next. */
    method Goes(r: nat, p: Proc)
      modifies this`book
      ensures book == old(book).(procs := old(book.procs)[r := p])
    {
      book := book.(procs := book.procs[r := p]);
    }

    /** Bookkeeping: request r is done. */
    method Leaves(r: nat)
      modifies this`book
      ensures book == old(book).(procs := old(book.procs) - {r})
    {
      book := book.(procs := book.procs - {r});
    }

    /** The request's connection is lost, or a statement of it fails. */
    method Fails(r: nat)
      requires Valid()
      modifies this
      ensures Valid() && log == old(log) + [Abort(r)] && past == old(past) + [View()]
      ensures View() == Finish(old(View()), r)
    {
      Leaves(r);
      Record(Abort(r));
    }

    // refresh_tokens

    /** UPDATE ... SET status = 'rotated' ... RETURNING, of RefreshTokenService.consume */
    method RotateActive(r: nat, via: Endpoint, hash: Text) returns (hit: Option<nat>)
      requires At(r, UpdateRotated(via, hash))
      modifies this
      ensures Valid() && log == old(log) + [Step(r, ANY)] && past == old(past) + [View()]
      ensures View() == DoUpdateRotated(old(View()), r, via, hash)
      ensures hit == Consumable(old(tokens), hash, old(book.now))
      ensures forall i :: 0 <= i < |old(tokens)| && old(tokens)[i].hash == hash ==>
        hit == if old(tokens)[i].status == Active && old(book.now) < old(tokens)[i].expiresAt then Some(i) else None
      ensures hit.Some? ==> hit.value < |old(tokens)| && old(tokens)[hit.value].hash == hash
      ensures tokens ==
        if hit.Some? then old(tokens)[hit.value := old(tokens)[hit.value].(status := Rotated)] else old(tokens)
    {
      Unique(past, log, View());
      ghost var before := View();
      hit := Consumable(tokens, hash, book.now);
      if hit.Some? {
        tokens := tokens[hit.value := tokens[hit.value].(status := Rotated)];
        Goes(r, InsertSuccessor(via, hit.value, tokens[hit.value]));
      } else {
        Goes(r, SelectKnown(hash));
      }
      TakesRotating(before, r, UpdateRotated(via, hash), ANY);
      Record(Step(r, ANY));
    }

    /** INSERT of the successor; the secret's hash is not in the table */
    method InsertNext(r: nat, via: Endpoint, presented: nat, row: TokenRow, secret: Text) returns (next: nat)
      requires At(r, InsertSuccessor(via, presented, row))
      requires FreshSecret(View(), secret)
      modifies this
      ensures Valid() && log == old(log) + [Step(r, ANY.(secret := secret))] && past == old(past) + [View()]
      ensures View() == DoInsertSuccessor(old(View()), r, via, presented, row, secret)
      ensures next == |old(tokens)|
      ensures tokens == old(tokens) +
        [TokenRow(row.session, row.user, row.client, Sha256(secret), row.family, Some(presented), row.scope, Active,
                 old(book.now) + REFRESH_TOKEN_TTL)]
    {
      ghost var before := View();
      next := |tokens|;
      tokens := tokens + [TokenRow(row.session, row.user, row.client, Sha256(secret), row.family, Some(presented),
                                   row.scope, Active, book.now + REFRESH_TOKEN_TTL)];
      if via.OAuthRefresh? && row.client != Some(via.client) {
        Goes(r, RevokeByToken(row.hash));
      } else {
        Goes(r, GetCached(row.session, ForRefresh(via, presented, row, next)));
      }
      TakesRotating(before, r, InsertSuccessor(via, presented, row), ANY.(secret := secret));
      Record(Step(r, ANY.(secret := secret)));
    }

    method SelectByHash(r: nat, hash: Text) returns (known: Option<nat>)
      requires At(r, SelectKnown(hash))
      modifies this
      ensures Valid() && log == old(log) + [Step(r, ANY)] && past == old(past) + [View()]
      ensures View() == DoSelectKnown(old(View()), r, hash)
      ensures known == TokenByHash(tokens, hash)
    {
      ghost var before := View();
      known := TokenByHash(tokens, hash);
      if known.Some? {
        Goes(r, RevokeReusedFamily(known.value, tokens[known.value]));
      } else {
        Leaves(r);
      }
      TakesRevoking(before, r, SelectKnown(hash), ANY);
      Record(Step(r, ANY));
    }

    method RevokeReused(r: nat, known: nat, row: TokenRow)
      requires At(r, RevokeReusedFamily(known, row))
      modifies this
      ensures Valid() && log == old(log) + [Step(r, ANY)] && past == old(past) + [View()]
      ensures View() == DoRevokeReusedFamily(old(View()), r, known, row)
      ensures RevokedJust(old(tokens), tokens, (t: TokenRow) => t.family == row.family)
    {
      ghost var before := View();
      tokens := RevokeTokens(tokens, OfFamily(row.family));
      Goes(r, RevokeReusedSession(known, row));
      TakesRevoking(before, r, RevokeReusedFamily(known, row), ANY);
      Record(Step(r, ANY));
    }

    method CloseReused(r: nat, known: nat, row: TokenRow)
      requires At(r, RevokeReusedSession(known, row))
      modifies this
      ensures Valid() && log == old(log) + [Step(r, ANY)] && past == old(past) + [View()]
      ensures View() == DoRevokeReusedSession(old(View()), r, row)
      ensures ClosedJust(old(sessions), sessions, (j, _) => j == row.session)
    {
      ghost var before := View();
      sessions := CloseSessions(sessions, ById(row.session));
      Leaves(r);
      TakesRevoking(before, r, RevokeReusedSession(known, row), ANY);
      Record(Step(r, ANY));
    }

    method RevokeHash(r: nat, hash: Text)
      requires At(r, RevokeByToken(hash))
      modifies this
      ensures Valid() && log == old(log) + [Step(r, ANY)] && past == old(past) + [View()]
      ensures View() == DoRevokeByToken(old(View()), r, hash)
      ensures RevokedJust(old(tokens), tokens, (t: TokenRow) => t.hash == hash)
    {
      ghost var before := View();
      tokens := RevokeTokens(tokens, WithHash(hash));
      Leaves(r);
      TakesRevoking(before, r, RevokeByToken(hash), ANY);
      Record(Step(r, ANY));
    }

    /** UPDATE ... SET status = 'revoked' WHERE token_hash = $1 ..., and whether it matched a row */
    method RevokeRows(hash: Text) returns (some: bool)
      requires UniqueHashes(View())
      modifies this`tokens
      ensures tokens == RevokeTokens(old(tokens), WithHash(hash))
      ensures var known := TokenByHash(old(tokens), hash);
        some <==> known.Some? && old(tokens)[known.value].status != Revoked
      ensures RevokedJust(old(tokens), tokens, (t: TokenRow) => t.hash == hash)
      ensures forall i :: 0 <= i < |old(tokens)| && old(tokens)[i].hash == hash ==>
        (some <==> old(tokens)[i].status != Revoked)
      ensures (forall i :: 0 <= i < |old(tokens)| ==> old(tokens)[i].hash != hash) ==> !some
    {
      FoundExactly(tokens, hash);
      var known := TokenByHash(tokens, hash);
      some := known.Some? && tokens[known.value].status != Revoked;
      tokens := RevokeTokens(tokens, WithHash(hash));
    }

    /**
     The UPDATE of revokeByToken, first statement of an RFC 7009 revocation; sid is what an access token
     names, if it is one.
     */
    method RevokeIfRefresh(r: nat, hash: Text, sid: Option<nat>) returns (wasRefresh: bool)
      requires At(r, RevokePresented(hash, sid))
      modifies this
      ensures Valid() && log == old(log) + [Step(r, ANY)] && past == old(past) + [View()]
      ensures View() == DoRevokePresented(old(View()), r, hash, sid)
      ensures var known := TokenByHash(old(tokens), hash);
        wasRefresh <==> known.Some? && old(tokens)[known.value].status != Revoked
      ensures RevokedJust(old(tokens), tokens, (t: TokenRow) => t.hash == hash)
      ensures forall i :: 0 <= i < |old(tokens)| && old(tokens)[i].hash == hash ==>
        (wasRefresh <==> old(tokens)[i].status != Revoked)
      ensures (forall i :: 0 <= i < |old(tokens)| ==> old(tokens)[i].hash != hash) ==> !wasRefresh
    {
      ghost var before := View();
      Unique(past, log, View());
      wasRefresh := RevokeRows(hash);
      if wasRefresh || sid.None? {
        Leaves(r);
      } else {
        Goes(r, EndSession(sid.value, None));
      }
      TakesRevoking(before, r, RevokePresented(hash, sid), ANY);
      Record(Step(r, ANY));
    }

    /** revokeFamily, by a refresh that found no open session */
    method RevokeRefused(r: nat, sid: nat, found: Option<SessionRow>, why: Purpose)
      requires At(r, Resume(sid, found, why))
      requires why.ForRefresh? && (found.None? || found.value.status != Open)
      modifies this
      ensures Valid() && log == old(log) + [Step(r, ANY)] && past == old(past) + [View()]
      ensures View() == DoResume(old(View()), r, found, sid, why, false)
      ensures RevokedJust(old(tokens), tokens, (t: TokenRow) => t.family == why.row.family)
    {
      ghost var before := View();
      tokens := RevokeTokens(tokens, OfFamily(why.row.family));
      Leaves(r);
      TakesRotating(before, r, Resume(sid, found, why), ANY);
      Record(Step(r, ANY));
    }

    /** The response of a refresh: the access token is signed and handed out, or the scope is refused */
    method Respond(r: nat, sid: nat, found: Option<SessionRow>, why: Purpose, scope: Option<string>)
      requires At(r, Resume(sid, found, why))
      requires why.ForRefresh? && found.Some? && found.value.status == Open
      requires scope == ScopeFor(why.via, why.row.scope)
      modifies this
      ensures Valid() && log == old(log) + [Step(r, ANY)] && past == old(past) + [View()]
      ensures View() == DoResume(old(View()), r, found, sid, why, false)
    {
      ghost var before := View();
      if scope.Some? {
        book := book.(grants := book.grants + [Refreshed(r, why.via, why.presented, why.row.session, scope.value)]);
      }
      Leaves(r);
      TakesRotating(before, r, Resume(sid, found, why), ANY);
      Record(Step(r, ANY));
    }

    /** Completing a challenge: roles are read, then the session's first refresh token is inserted */
    method IssueNext(r: nat, sid: nat, found: Option<SessionRow>, why: Purpose, admin: bool)
      requires At(r, Resume(sid, found, why))
      requires why.ForMfa?
      modifies this
      ensures Valid() && log == old(log) + [Step(r, ANY.(ok := admin))] && past == old(past) + [View()]
      ensures View() == DoResume(old(View()), r, found, sid, why, admin)
    {
      ghost var before := View();
      if found.Some? && found.value.status == Open {
        Goes(r, InsertRoot(sid, found.value.user, None, found.value.origin, DefaultScope(admin)));
      } else {
        Leaves(r);
      }
      TakesRotating(before, r, Resume(sid, found, why), ANY.(ok := admin));
      Record(Step(r, ANY.(ok := admin)));
    }

    // sessions and their cache

    method GetSession(r: nat, sid: nat, why: Purpose) returns (cached: Option<SessionRow>)
      requires At(r, GetCached(sid, why))
      modifies this
      ensures Valid() && log == old(log) + [Step(r, ANY)] && past == old(past) + [View()]
      ensures View() == DoGetCached(old(View()), r, sid, why)
      ensures cached == (if sid in cache then Some(cache[sid]) else None)
    {
      ghost var before := View();
      cached := if sid in cache then Some(cache[sid]) else None;
      if cached.Some? && cached.value.status != Open {
        Goes(r, Resume(sid, cached, why));
      } else {
        Goes(r, SelectSession(sid, cached.Some?, why));
      }
      TakesFinding(before, r, GetCached(sid, why), ANY);
      Record(Step(r, ANY));
    }

    method SelectById(r: nat, sid: nat, hit: bool, why: Purpose) returns (row: Option<SessionRow>)
      requires At(r, SelectSession(sid, hit, why))
      modifies this
      ensures Valid() && log == old(log) + [Step(r, ANY)] && past == old(past) + [View()]
      ensures View() == DoSelectSession(old(View()), r, sid, hit, why)
      ensures row == SessionById(sessions, sid)
    {
      ghost var before := View();
      row := SessionById(sessions, sid);
      if row.Some? {
        Goes(r, SetCached(sid, row.value, why));
      } else if hit {
        Goes(r, DelCached(sid, why));
      } else {
        Goes(r, Resume(sid, None, why));
      }
      TakesFinding(before, r, SelectSession(sid, hit, why), ANY);
      Record(Step(r, ANY));
    }

    method SetSession(r: nat, sid: nat, row: SessionRow, why: Purpose)
      requires At(r, SetCached(sid, row, why))
      modifies this
      ensures Valid() && log == old(log) + [Step(r, ANY)] && past == old(past) + [View()]
      ensures View() == DoSetCached(old(View()), r, sid, row, why)
      ensures cache == old(cache)[sid := row]
    {
      ghost var before := View();
      cache := cache[sid := row];
      Goes(r, Resume(sid, Some(row), why));
      TakesFinding(before, r, SetCached(sid, row, why), ANY);
      Record(Step(r, ANY));
    }

    method DropSession(r: nat, sid: nat, why: Purpose)
      requires At(r, DelCached(sid, why))
      modifies this
      ensures Valid() && log == old(log) + [Step(r, ANY)] && past == old(past) + [View()]
      ensures View() == DoDelCached(old(View()), r, sid, why)
      ensures cache == old(cache) - {sid}
    {
      ghost var before := View();
      cache := cache - {sid};
      Goes(r, Resume(sid, None, why));
      TakesFinding(before, r, DelCached(sid, why), ANY);
      Record(Step(r, ANY));
    }

    method CloseSession(r: nat, sid: nat, refresh: Option<Text>)
      requires At(r, EndSession(sid, refresh))
      modifies this
      ensures Valid() && log == old(log) + [Step(r, ANY)] && past == old(past) + [View()]
      ensures View() == DoEndSession(old(View()), r, sid, refresh)
      ensures ClosedJust(old(sessions), sessions, (j, _) => j == sid)
    {
      ghost var before := View();
      sessions := CloseSessions(sessions, ById(sid));
      Goes(r, EndSessionTokens(sid, refresh));
      TakesEnding(before, r, EndSession(sid, refresh), ANY);
      Record(Step(r, ANY));
    }

    method RevokeOfSession(r: nat, sid: nat, refresh: Option<Text>)
      requires At(r, EndSessionTokens(sid, refresh))
      modifies this
      ensures Valid() && log == old(log) + [Step(r, ANY)] && past == old(past) + [View()]
      ensures View() == DoEndSessionTokens(old(View()), r, sid, refresh)
      ensures RevokedJust(old(tokens), tokens, (t: TokenRow) => t.session == sid && t.status == Active)
    {
      ghost var before := View();
      tokens := RevokeTokens(tokens, ActiveOfSession(sid));
      Goes(r, DelSession(sid, refresh));
      TakesEnding(before, r, EndSessionTokens(sid, refresh), ANY);
      Record(Step(r, ANY));
    }

    method UncacheSession(r: nat, sid: nat, refresh: Option<Text>)
      requires At(r, DelSession(sid, refresh))
      modifies this
      ensures Valid() && log == old(log) + [Step(r, ANY)] && past == old(past) + [View()]
      ensures View() == DoDelSession(old(View()), r, sid, refresh)
      ensures cache == old(cache) - {sid}
    {
      ghost var before := View();
      cache := cache - {sid};
      if refresh.Some? {
        Goes(r, RevokeByToken(refresh.value));
      } else {
        Leaves(r);
      }
      TakesEnding(before, r, DelSession(sid, refresh), ANY);
      Record(Step(r, ANY));
    }

    method CloseAllOf(r: nat, user: nat)
      requires At(r, EndUserSessions(user))
      modifies this
      ensures Valid() && log == old(log) + [Step(r, ANY)] && past == old(past) + [View()]
      ensures View() == DoEndUserSessions(old(View()), r, user)
      ensures ClosedJust(old(sessions), sessions, (_, row: SessionRow) => row.user == user)
    {
      ghost var before := View();
      sessions := CloseSessions(sessions, ByUser(user));
      Goes(r, EndUserTokens(user));
      TakesEnding(before, r, EndUserSessions(user), ANY);
      Record(Step(r, ANY));
    }

    method RevokeAllOf(r: nat, user: nat)
      requires At(r, EndUserTokens(user))
      modifies this
      ensures Valid() && log == old(log) + [Step(r, ANY)] && past == old(past) + [View()]
      ensures View() == DoEndUserTokens(old(View()), r, user)
      ensures RevokedJust(old(tokens), tokens, (t: TokenRow) => t.user == user)
    {
      ghost var before := View();
      tokens := RevokeTokens(tokens, OfUser(user));
      Goes(r, DelAllSessions);
      TakesEnding(before, r, EndUserTokens(user), ANY);
      Record(Step(r, ANY));
    }

    /** delByPrefix: the SCAN saw the keys in swept */
    method UncacheAll(r: nat, swept: set<nat>)
      requires At(r, DelAllSessions)
      modifies this
      ensures Valid() && log == old(log) + [Step(r, ANY.(swept := swept))] && past == old(past) + [View()]
      ensures View() == DoDelAllSessions(old(View()), r, swept)
      ensures cache == old(cache) - swept
    {
      ghost var before := View();
      cache := cache - swept;
      Leaves(r);
      TakesEnding(before, r, DelAllSessions, ANY.(swept := swept));
      Record(Step(r, ANY.(swept := swept)));
    }

    // sign-in

    method CreateSession(r: nat, user: nat, client: Option<nat>, origin: Origin, scope: string, admin: bool)
      returns (sid: nat)
      requires At(r, InsertSession(user, client, origin, scope))
      modifies this
      ensures Valid() && log == old(log) + [Step(r, ANY.(ok := admin))] && past == old(past) + [View()]
      ensures View() == DoInsertSession(old(View()), r, user, client, origin, scope, admin)
      ensures sid == |old(sessions)|
      ensures sessions == old(sessions) + [SessionRow(user, client, origin, origin.FromCode?, Open)]
    {
      ghost var before := View();
      sid := |sessions|;
      sessions := sessions + [SessionRow(user, client, origin, origin.FromCode?, Open)];
      if origin.SecondFactor? {
        Goes(r, SetChallenge(user, sid));
      } else {
        Goes(r, InsertRoot(sid, user, client, origin, if origin.FromCode? then scope else DefaultScope(admin)));
      }
      TakesIssuing(before, r, InsertSession(user, client, origin, scope), ANY.(ok := admin));
      Record(Step(r, ANY.(ok := admin)));
    }

    /** The INSERT of a family's first token, and the response; hash and family are not in the table */
    method IssueRoot(r: nat, sid: nat, user: nat, client: Option<nat>, origin: Origin, scope: string, c: Choice)
      requires At(r, InsertRoot(sid, user, client, origin, scope))
      requires FreshSecret(View(), c.secret) && FreshFamily(View(), c.id)
      modifies this
      ensures Valid() && log == old(log) + [Step(r, c)] && past == old(past) + [View()]
      ensures View() == DoInsertRoot(old(View()), r, sid, user, client, scope, c)
      ensures tokens == old(tokens) +
        [TokenRow(sid, user, client, Sha256(c.secret), c.id, None, scope, Active, old(book.now) + REFRESH_TOKEN_TTL)]
    {
      ghost var before := View();
      tokens := tokens +
        [TokenRow(sid, user, client, Sha256(c.secret), c.id, None, scope, Active, book.now + REFRESH_TOKEN_TTL)];
      book := book.(grants := book.grants + [SignedIn(r, sid, scope)]);
      Leaves(r);
      TakesIssuing(before, r, InsertRoot(sid, user, client, origin, scope), c);
      Record(Step(r, c));
    }

    // MFA challenges

    method SaveChallenge(r: nat, user: nat, sid: nat, id: nat)
      requires At(r, SetChallenge(user, sid))
      requires id !in book.challengeIds
      modifies this
      ensures Valid() && log == old(log) + [Step(r, ANY.(id := id))] && past == old(past) + [View()]
      ensures View() == DoSetChallenge(old(View()), r, user, sid, id)
      ensures challenges == old(challenges)[id := Challenge(user, sid, 0)]
    {
      ghost var before := View();
      challenges := challenges[id := Challenge(user, sid, 0)];
      book := book.(challengeIds := book.challengeIds + {id});
      Leaves(r);
      TakesChallenging(before, r, SetChallenge(user, sid), ANY.(id := id));
      Record(Step(r, ANY.(id := id)));
    }

    method ReadChallenge(r: nat, id: nat) returns (found: Option<Challenge>)
      requires At(r, GetChallenge(id))
      modifies this
      ensures Valid() && log == old(log) + [Step(r, ANY)] && past == old(past) + [View()]
      ensures View() == DoGetChallenge(old(View()), r, id)
      ensures found == (if id in challenges then Some(challenges[id]) else None)
    {
      ghost var before := View();
      found := if id in challenges then Some(challenges[id]) else None;
      if found.None? {
        Leaves(r);
      } else if found.value.attempts >= MAX_MFA_ATTEMPTS {
        Goes(r, DropChallenge(id));
      } else {
        Goes(r, CheckCode(id, found.value));
      }
      TakesChallenging(before, r, GetChallenge(id), ANY);
      Record(Step(r, ANY));
    }

    method DiscardChallenge(r: nat, id: nat)
      requires At(r, DropChallenge(id))
      modifies this
      ensures Valid() && log == old(log) + [Step(r, ANY)] && past == old(past) + [View()]
      ensures View() == DoDropChallenge(old(View()), r, id)
      ensures challenges == old(challenges) - {id}
    {
      ghost var before := View();
      challenges := challenges - {id};
      Leaves(r);
      TakesChallenging(before, r, DropChallenge(id), ANY);
      Record(Step(r, ANY));
    }

    /** The method's secret is read and the code checked against it */
    method Verify(r: nat, id: nat, seen: Challenge, ok: bool)
      requires At(r, CheckCode(id, seen))
      modifies this
      ensures Valid() && log == old(log) + [Step(r, ANY.(ok := ok))] && past == old(past) + [View()]
      ensures View() == DoCheckCode(old(View()), r, id, seen, ok)
    {
      ghost var before := View();
      book := book.(checks := book.checks + [Check(id, seen.session, ok)]);
      Goes(r, if ok then PassSession(id, seen) else SetAttempts(id, seen));
      TakesChallenging(before, r, CheckCode(id, seen), ANY.(ok := ok));
      Record(Step(r, ANY.(ok := ok)));
    }

    method CountAttempt(r: nat, id: nat, seen: Challenge)
      requires At(r, SetAttempts(id, seen))
      modifies this
      ensures Valid() && log == old(log) + [Step(r, ANY)] && past == old(past) + [View()]
      ensures View() == DoSetAttempts(old(View()), r, id, seen)
      ensures challenges == old(challenges)[id := Challenge(seen.user, seen.session, seen.attempts + 1)]
    {
      ghost var before := View();
      challenges := challenges[id := seen.(attempts := seen.attempts + 1)];
      Leaves(r);
      TakesChallenging(before, r, SetAttempts(id, seen), ANY);
      Record(Step(r, ANY));
    }

    method MarkPassed(r: nat, id: nat, seen: Challenge)
      requires At(r, PassSession(id, seen))
      modifies this
      ensures Valid() && log == old(log) + [Step(r, ANY)] && past == old(past) + [View()]
      ensures View() == DoPassSession(old(View()), r, id, seen)
      ensures seen.session < |old(sessions)| ==>
        sessions == old(sessions)[seen.session := old(sessions)[seen.session].(mfaPassed := true)]
    {
      ghost var before := View();
      sessions := PassMfa(sessions, seen.session);
      Goes(r, DelChallenge(id, seen));
      TakesChallenging(before, r, PassSession(id, seen), ANY);
      Record(Step(r, ANY));
    }

    method SpendChallenge(r: nat, id: nat, seen: Challenge)
      requires At(r, DelChallenge(id, seen))
      modifies this
      ensures Valid() && log == old(log) + [Step(r, ANY)] && past == old(past) + [View()]
      ensures View() == DoDelChallenge(old(View()), r, id, seen)
      ensures challenges == old(challenges) - {id}
    {
      ghost var before := View();
      challenges := challenges - {id};
      Goes(r, GetCached(seen.session, ForMfa(id)));
      TakesChallenging(before, r, DelChallenge(id, seen), ANY);
      Record(Step(r, ANY));
    }

    // clients and authorization codes

    /** findByClientId, and the checks authorize makes before it issues a code */
    method SelectAuthorizing(r: nat, f: AuthorizeForm, wellFormed: bool) returns (ok: bool)
      requires At(r, SelectAuthorizingClient(f))
      modifies this
      ensures Valid() && log == old(log) + [Step(r, ANY.(ok := wellFormed))] && past == old(past) + [View()]
      ensures View() == DoSelectAuthorizingClient(old(View()), r, f, wellFormed)
      ensures ok <==> f.client < |clients| && MayAuthorize(clients[f.client], f) && wellFormed
      ensures clients == old(clients)
      ensures ok <==>
        && wellFormed && f.user.Some? && f.client < |clients| && clients[f.client].enabled
        && f.redirect in clients[f.client].redirects && (clients[f.client].requirePkce ==> f.codeMethod == S256)
        && forall w :: w in Words(f.scope) ==> w in clients[f.client].allowedScopes
    {
      ghost var before := View();
      ok := f.client < |clients| && MayAuthorize(clients[f.client], f) && wellFormed;
      if ok {
        Goes(r, InsertCode(f, f.user.value));
      } else {
        Leaves(r);
      }
      TakesAuthorizing(before, r, SelectAuthorizingClient(f), ANY.(ok := wellFormed));
      Record(Step(r, ANY.(ok := wellFormed)));
    }

    /** The INSERT of an authorization code whose hash is not in the table */
    method SaveCode(r: nat, f: AuthorizeForm, owner: nat, secret: Text)
      requires At(r, InsertCode(f, owner))
      requires FreshSecret(View(), secret)
      modifies this
      ensures Valid() && log == old(log) + [Step(r, ANY.(secret := secret))] && past == old(past) + [View()]
      ensures View() == DoInsertCode(old(View()), r, f, owner, secret)
      ensures codes == old(codes) +
        [CodeRow(Sha256(secret), f.client, owner, f.redirect, f.scope, f.challenge, f.codeMethod,
                 old(book.now) + AUTHORIZATION_CODE_TTL, None)]
    {
      ghost var before := View();
      codes := codes + [CodeRow(Sha256(secret), f.client, owner, f.redirect, f.scope, f.challenge, f.codeMethod,
                              book.now + AUTHORIZATION_CODE_TTL, None)];
      Leaves(r);
      TakesIssuing(before, r, InsertCode(f, owner), ANY.(secret := secret));
      Record(Step(r, ANY.(secret := secret)));
    }

    /** findByClientId and client authentication; a client_credentials grant is answered at once */
    method IdentifyClient(r: nat, client: nat, secret: Option<Text>, grant: TokenForm) returns (granted: Option<Grant>)
      requires At(r, SelectClient(client, secret, grant))
      modifies this
      ensures Valid() && log == old(log) + [Step(r, ANY)] && past == old(past) + [View()]
      ensures View() == DoSelectClient(old(View()), r, client, secret, grant)
      ensures granted.Some? ==>
        grant.CredentialsGrant? && granted.value == ClientToken(client, Join(Words(grant.scope)))
      ensures book.grants == old(book.grants) + match granted case Some(g) => [g] case None => []
      ensures clients == old(clients)
    {
      ghost var before := View();
      granted := None;
      if client >= |clients| || !clients[client].enabled {
        Leaves(r);
      } else if grant.CredentialsGrant? {
        if MayUseCredentials(clients[client], secret, grant.scope) {
          granted := Some(ClientToken(client, Join(Words(grant.scope))));
          book := book.(grants := book.grants + [granted.value]);
        }
        Leaves(r);
      } else if !Authenticates(clients[client], secret) {
        Leaves(r);
      } else if grant.CodeGrant? {
        Goes(r, PeekCode(client, grant.form));
      } else {
        Goes(r, UpdateRotated(OAuthRefresh(client, grant.scope), Sha256(grant.token)));
      }
      TakesRotating(before, r, SelectClient(client, secret, grant), ANY);
      Record(Step(r, ANY));
    }

    /** The SELECT of peek, and the PKCE check */
    method Peek(r: nat, client: nat, form: CodeForm) returns (seen: Reading)
      requires At(r, PeekCode(client, form))
      modifies this
      ensures Valid() && log == old(log) + [Step(r, ANY)] && past == old(past) + [View()]
      ensures View() == DoPeekCode(old(View()), r, client, form)
      ensures seen == ReadCode(codes, old(book.now), client, form)
      ensures codes == old(codes)
      ensures forall i :: 0 <= i < |codes| && codes[i].hash == Sha256(form.code) ==>
        seen ==
          if codes[i].client != client || codes[i].redirect != form.redirect then Unusable
          else if codes[i].consumed.Some? then Replayed(i)
          else if codes[i].expiresAt < old(book.now) then Unusable else Usable(i)
      ensures (forall i :: 0 <= i < |codes| ==> codes[i].hash != Sha256(form.code)) ==> seen == Unusable
    {
      Unique(past, log, View());
      forall i: nat | i < |codes| && codes[i].hash == Sha256(form.code) {
        ReadExactly(codes, book.now, client, form, i);
      }
      ghost var before := View();
      seen := ReadCode(codes, book.now, client, form);
      if seen.Unusable? {
        Leaves(r);
      } else if seen.Replayed? {
        Goes(r, RevokeReplayed(seen.code, codes[seen.code].user, client));
      } else if Matches(form.verifier, codes[seen.code].challenge, codes[seen.code].codeMethod) {
        Goes(r, SelectCode(client, form, seen.code));
      } else {
        Leaves(r);
      }
      TakesAuthorizing(before, r, PeekCode(client, form), ANY);
      Record(Step(r, ANY));
    }

    /** The SELECT of consume */
    method SelectAgain(r: nat, client: nat, form: CodeForm, peeked: nat) returns (seen: Reading)
      requires At(r, SelectCode(client, form, peeked))
      modifies this
      ensures Valid() && log == old(log) + [Step(r, ANY)] && past == old(past) + [View()]
      ensures View() == DoSelectCode(old(View()), r, client, form)
      ensures seen == ReadCode(codes, old(book.now), client, form)
      ensures codes == old(codes)
      ensures forall i :: 0 <= i < |codes| && codes[i].hash == Sha256(form.code) ==>
        seen ==
          if codes[i].client != client || codes[i].redirect != form.redirect then Unusable
          else if codes[i].consumed.Some? then Replayed(i)
          else if codes[i].expiresAt < old(book.now) then Unusable else Usable(i)
      ensures (forall i :: 0 <= i < |codes| ==> codes[i].hash != Sha256(form.code)) ==> seen == Unusable
    {
      Unique(past, log, View());
      forall i: nat | i < |codes| && codes[i].hash == Sha256(form.code) {
        ReadExactly(codes, book.now, client, form, i);
      }
      ghost var before := View();
      seen := ReadCode(codes, book.now, client, form);
      if seen.Unusable? {
        Leaves(r);
      } else if seen.Replayed? {
        Goes(r, RevokeReplayed(seen.code, codes[seen.code].user, client));
      } else {
        Goes(r, ConsumeCode(client, form, seen.code));
      }
      TakesAuthorizing(before, r, SelectCode(client, form, peeked), ANY);
      Record(Step(r, ANY));
    }

    /** UPDATE authorization_codes SET consumed_at = now() WHERE id = $1 AND consumed_at IS NULL */
    method Consume(r: nat, client: nat, form: CodeForm, code: nat) returns (won: bool)
      requires At(r, ConsumeCode(client, form, code))
      requires code < |codes|
      modifies this
      ensures Valid() && log == old(log) + [Step(r, ANY)] && past == old(past) + [View()]
      ensures View() == DoConsumeCode(old(View()), r, client, form, code)
      ensures won == old(codes)[code].consumed.None?
      ensures won ==>
        var used := Presented(client, form.redirect, form.verifier);
        codes == old(codes)[code := old(codes)[code].(consumed := Some(used))]
      ensures !won ==> codes == old(codes)
    {
      ghost var before := View();
      won := codes[code].consumed.None?;
      var row := codes[code];
      if won {
        codes := codes[code := row.(consumed := Some(Presented(client, form.redirect, form.verifier)))];
        Goes(r, InsertSession(row.user, Some(client), FromCode(code), row.scope));
      } else {
        Goes(r, RevokeReplayed(code, row.user, client));
      }
      TakesIssuing(before, r, ConsumeCode(client, form, code), ANY);
      Record(Step(r, ANY));
    }

    method RevokeForReplay(r: nat, code: nat, user: nat, client: nat)
      requires At(r, RevokeReplayed(code, user, client))
      modifies this
      ensures Valid() && log == old(log) + [Step(r, ANY)] && past == old(past) + [View()]
      ensures View() == DoRevokeReplayed(old(View()), r, user, client)
      ensures RevokedJust(old(tokens), tokens, (t: TokenRow) => t.user == user && t.client == Some(client))
    {
      ghost var before := View();
      tokens := RevokeTokens(tokens, OfUserAndClient(user, client));
      Leaves(r);
      TakesRevoking(before, r, RevokeReplayed(code, user, client), ANY);
      Record(Step(r, ANY));
    }

    // password reset

    /** UPDATE password_reset_tokens SET used_at = now() ... RETURNING; the policy is checked before */
    method UseResetToken(r: nat, hash: Text, policyOk: bool) returns (hit: Option<nat>)
      requires At(r, UseReset(hash, policyOk))
      modifies this
      ensures Valid() && log == old(log) + [Step(r, ANY)] && past == old(past) + [View()]
      ensures View() == DoUseReset(old(View()), r, hash, policyOk)
      ensures hit == (if policyOk then Redeemable(old(resets), hash, old(book.now)) else None)
      ensures forall i :: 0 <= i < |old(resets)| && old(resets)[i].hash == hash ==>
        hit == if policyOk && !old(resets)[i].used && old(book.now) < old(resets)[i].expiresAt then Some(i) else None
      ensures hit.Some? ==> hit.value < |old(resets)| && old(resets)[hit.value].hash == hash
      ensures resets ==
        if hit.Some? then old(resets)[hit.value := old(resets)[hit.value].(used := true)] else old(resets)
    {
      Unique(past, log, View());
      ghost var before := View();
      hit := if policyOk then Redeemable(resets, hash, book.now) else None;
      if hit.Some? {
        resets := resets[hit.value := resets[hit.value].(used := true)];
        Goes(r, SetPassword(hit.value, resets[hit.value].user));
      } else {
        Leaves(r);
      }
      TakesIssuing(before, r, UseReset(hash, policyOk), ANY);
      Record(Step(r, ANY));
    }

    method UpdatePassword(r: nat, reset: nat, user: nat)
      requires At(r, SetPassword(reset, user))
      modifies this
      ensures Valid() && log == old(log) + [Step(r, ANY)] && past == old(past) + [View()]
      ensures View() == DoSetPassword(old(View()), r, reset, user)
    {
      ghost var before := View();
      book := book.(changes := book.changes + [reset]);
      Goes(r, EndUserSessions(user));
      TakesIssuing(before, r, SetPassword(reset, user), ANY);
      Record(Step(r, ANY));
    }
  }
}
