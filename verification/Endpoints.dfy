/** AuthService and OAuthService: the requests that sign in, refresh, exchange, sign out and reset. */
module Endpoints {
  import opened Basics
  import opened Scopes
  import opened Tables
  import opened Machine
  import opened Invariant
  import opened Requests
  import opened Sessions
  import opened Server
  import opened Services

  /** The last event handed out this access token, or none. */
  ghost predicate Paid(past: seq<State>, granted: Option<Grant>) {
    && |past| >= 2
    && past[|past| - 1].grants == past[|past| - 2].grants + match granted case Some(g) => [g] case None => []
  }

  /** The database said the session is open at some moment since then. */
  ghost predicate OpenSince(past: seq<State>, since: nat, sid: nat) {
    exists n: nat :: since <= n < |past| && OpenIn(past[n], sid)
  }

  predicate OpenIn(s: State, sid: nat) { sid < |s.sessions| && s.sessions[sid].status == Open }

  // What can keep a request from its answer, at some moment (when) of the call

  /** The moment is one of the call that began with past. */
  predicate During(past: seq<State>, now: seq<State>, when: nat) { |past| - 1 <= when < |now| }

  lemma ShutRead(a: seq<State>, since: nat, b: seq<State>, sid: nat, found: Option<SessionRow>) returns (when: nat)
    requires ReadSince(a, since, sid, found) && (found.None? || found.value.status != Open) && Later(a, b)
    ensures since <= when < |b| && !OpenIn(b[when], sid)
  {
    when :| since <= when < |a| && Answers(found, SessionById(a[when].sessions, sid));
    assert b[when] == a[when];
  }

  /** The secret or the family that was drawn is taken. */
  predicate Unlucky(s: State, c: Choice) { !FreshSecret(s, c.secret) || !FreshFamily(s, c.id) }

  lemma OpenRead(a: seq<State>, since: nat, b: seq<State>, sooner: nat, sid: nat, row: SessionRow)
    requires ReadSince(a, since, sid, Some(row)) && row.status == Open && Later(a, b) && sooner <= since
    ensures OpenSince(b, sooner, sid)
  {
    var n: nat :| since <= n < |a| && Answers(Some(row), SessionById(a[n].sessions, sid));
    assert b[n] == a[n] && OpenIn(b[n], sid);
  }

  /** An OAuth refresh may ask for scope words that are all stored. */
  ghost predicate MayAsk(via: Endpoint, stored: string) {
    via.OAuthRefresh? ==> forall w :: w in Words(via.requested) ==> w in Words(stored)
  }

  /** The scope handed out: the words asked for if there are any, and otherwise what is stored. */
  predicate ScopeIs(scope: string, via: Endpoint, stored: string) {
    if via.OAuthRefresh? && Words(via.requested) != [] then Words(scope) == Words(via.requested) else scope == stored
  }

  /** Both refresh endpoints once the session has been read: refuse and revoke the family, or sign an access token. */
  method Answer(db: Database, r: nat, sid: nat, found: Option<SessionRow>, why: Purpose)
    returns (granted: Option<Grant>)
    requires db.At(r, Resume(sid, found, why)) && why.ForRefresh?
    modifies db
    ensures db.Valid() && Later(old(db.past), db.past) && r !in db.book.procs && Paid(db.past, granted)
    ensures granted.Some? ==>
      && found.Some? && found.value.status == Open
      && granted.value.Refreshed? && granted.value.request == r
      && granted.value.via == why.via && granted.value.presented == why.presented
      && granted.value.session == why.row.session && ScopeIs(granted.value.scope, why.via, why.row.scope)
    ensures granted.Some? <==> found.Some? && found.value.status == Open && MayAsk(why.via, why.row.scope)
  {
    if found.None? || found.value.status != Open {
      db.RevokeRefused(r, sid, found, why);
      return None;
    }
    var scope := Some(why.row.scope);
    assert why.via.OAuthRefresh? ==>
      (NarrowingAllowed(why.row.scope, why.via.requested) <==> MayAsk(why.via, why.row.scope));
    if why.via.OAuthRefresh? {
      scope := if NarrowingAllowed(why.row.scope, why.via.requested)
        then Some(Narrowed(why.row.scope, why.via.requested)) else None;
      if scope.Some? {
        NarrowedNeverGrows(why.row.scope, why.via.requested);
      }
    }
    db.Respond(r, sid, found, why, scope);
    granted := if scope.Some? then Some(Refreshed(r, why.via, why.presented, why.row.session, scope.value)) else None;
  }

  /** What a refresh that handed out a token had: the presented token was live, and its session open during the call. */
  ghost predicate RefreshedFor(past: seq<State>, since: nat, r: nat, presented: Option<nat>, granted: Option<Grant>) {
    granted.Some? ==>
      && granted.value.Refreshed? && granted.value.request == r
      && Some(granted.value.presented) == presented
      && OpenSince(past, since, granted.value.session)
  }

  /** The token a grant was handed out for: presented, active and not expired then, with its session and scope. */
  predicate PaidAgainst(t: seq<TokenRow>, hash: Text, now: int, g: Grant) {
    && g.Refreshed? && g.presented < |t|
    && t[g.presented].hash == hash && t[g.presented].status == Active && now < t[g.presented].expiresAt
    && g.session == t[g.presented].session && ScopeIs(g.scope, g.via, t[g.presented].scope)
    && (g.via.OAuthRefresh? ==> t[g.presented].client == Some(g.via.client))
  }

  /** The session of the presented token is not open. */
  ghost predicate PresentedShut(t: seq<TokenRow>, hash: Text, s: State) {
    exists i :: 0 <= i < |t| && t[i].hash == hash && !OpenIn(s, t[i].session)
  }

  class AuthService {
    const db: Database
    const sessions: SessionRepository
    const refreshTokens: RefreshTokenService

    constructor (db: Database)
      ensures Wired() && this.db == db
    {
      this.db := db;
      this.sessions := new SessionRepository(db);
      this.refreshTokens := new RefreshTokenService(db);
    }

    predicate Wired() { sessions.db == db && refreshTokens.db == db }

    /** A live token whose session stays open is answered, unless the successor's secret is taken. */
    method Refresh(r: nat, hash: Text, secret: Text, others: nat -> seq<Event>)
      returns (granted: Option<Grant>, ghost when: nat)
      requires Wired() && db.At(r, UpdateRotated(AuthRefresh, hash)) && Apart(others, r)
      modifies db
      ensures db.Valid() && Later(old(db.past), db.past) && r !in db.book.procs
      ensures RefreshedFor(db.past, |old(db.past)| - 1, r, Consumable(old(db.tokens), hash, old(db.book.now)), granted)
      ensures granted.Some? ==> Paid(db.past, granted)
      ensures granted.Some? ==> PaidAgainst(old(db.tokens), hash, old(db.book.now), granted.value)
      ensures granted.None? ==>
        || MatchesJust(old(db.tokens), hash, old(db.book.now), false)
        || (During(old(db.past), db.past, when)
            && (!FreshSecret(db.past[when], secret) || PresentedShut(old(db.tokens), hash, db.past[when])))
    {
      ghost var past0, before := db.past, db.View();
      var consumed;
      consumed, when := refreshTokens.Consume(r, AuthRefresh, hash, secret, others);
      if !consumed.Succeeded? { return None, when; }
      ghost var past1 := db.past;
      granted, when := Continue(r, AuthRefresh, consumed, others);
      LaterStill(past0, past1, db.past);
      assert before.tokens[consumed.presented].hash == hash;
      if granted.Some? {
        OpenEarlier(db.past, |past1| - 1, |past0| - 1, granted.value.session);
      }
    }

    /** After the rotation: the session read and the answer. */
    method Continue(r: nat, via: Endpoint, consumed: Consumed, others: nat -> seq<Event>)
      returns (granted: Option<Grant>, ghost when: nat)
      requires Wired() && consumed.Succeeded? && Apart(others, r)
      requires db.At(r,
        GetCached(consumed.row.session, ForRefresh(via, consumed.presented, consumed.row, consumed.next)))
      modifies db
      ensures db.Valid() && Later(old(db.past), db.past) && r !in db.book.procs && Paid(db.past, granted)
      ensures RefreshedFor(db.past, |old(db.past)| - 1, r, Some(consumed.presented), granted)
      ensures granted.Some? ==>
        && granted.value.via == via && granted.value.session == consumed.row.session
        && ScopeIs(granted.value.scope, via, consumed.row.scope)
      ensures granted.None? ==>
        || !MayAsk(via, consumed.row.scope)
        || (During(old(db.past), db.past, when) && !OpenIn(db.past[when], consumed.row.session))
    {
      when := 0;
      ghost var past0 := db.past;
      var sid, why := consumed.row.session, ForRefresh(via, consumed.presented, consumed.row, consumed.next);
      Wait(db, r, others(20));
      ghost var past1 := db.past;
      var found := sessions.FindById(r, sid, why, others);
      ghost var past2 := db.past;
      LaterStill(past0, past1, past2);
      Wait(db, r, others(21));
      ghost var past3 := db.past;
      LaterStill(past0, past2, past3);
      granted := Answer(db, r, sid, found, why);
      LaterStill(past0, past3, db.past);
      LaterStill(past2, past3, db.past);
      if granted.Some? {
        OpenRead(past2, |past1| - 1, db.past, |past0| - 1, sid, found.value);
      } else if found.None? || found.value.status != Open {
        when := ShutRead(past2, |past1| - 1, db.past, sid, found);
      }
    }

    /** Only one session, or all of them; a refresh token presented with the former goes too. */
    method LogoutSession(r: nat, sid: nat, refresh: Option<Text>, others: nat -> seq<Event>)
      requires Wired() && db.At(r, EndSession(sid, refresh)) && Apart(others, r)
      modifies db
      ensures db.Valid() && Later(old(db.past), db.past) && r !in db.book.procs
      ensures sid < |old(db.sessions)| ==> ClosedSession(db.View(), sid)
      ensures refresh.Some? ==> AllRevoked(db.tokens, refresh.value)
      ensures forall i: nat :: TokenOfSession(old(db.tokens), i, sid) ==> SpentIn(db.View(), i)
    {
      ghost var past0, known := db.past, sid < |db.sessions|;
      sessions.Revoke(r, sid, refresh, others);
      if refresh.Some? {
        ghost var past1, closed := db.past, db.View();
        assert forall i: nat :: TokenOfSession(old(db.tokens), i, sid) ==> SpentIn(closed, i);
        assert Last(past1, closed) && (known ==> ClosedSession(closed, sid));
        Wait(db, r, others(22));
        ghost var past2 := db.past;
        refreshTokens.RevokeByToken(r, refresh.value);
        LaterStill(past1, past2, db.past);
        LaterStill(past0, past1, db.past);
        StaysClosed(db, past1, closed, sid);
        SpentStays(db, past1, closed);
      }
    }

    /** A policy failure spends nothing; otherwise the token is used and every session of its user is closed. */
    method ResetPassword(r: nat, hash: Text, policyOk: bool, swept: set<nat>, others: nat -> seq<Event>)
      returns (done: bool)
      requires Wired() && db.At(r, UseReset(hash, policyOk)) && Apart(others, r)
      modifies db
      ensures db.Valid() && Later(old(db.past), db.past) && r !in db.book.procs
      ensures done <==> policyOk && Redeemable(old(db.resets), hash, old(db.book.now)).Some?
      ensures forall i :: 0 <= i < |old(db.resets)| && old(db.resets)[i].hash == hash ==>
        (done <==> policyOk && !old(db.resets)[i].used && old(db.book.now) < old(db.resets)[i].expiresAt)
      ensures (forall i :: 0 <= i < |old(db.resets)| ==> old(db.resets)[i].hash != hash) ==> !done
      ensures !done ==> db.View() == Finish(old(db.View()), r)
      ensures done ==> forall sid: nat ::
        OwnedBy(old(db.View()), sid, old(db.resets)[Redeemable(old(db.resets), hash, old(db.book.now)).value].user) ==>
          ClosedSession(db.View(), sid)
      ensures done ==> forall i: nat ::
        TokenOfUser(old(db.tokens), i,
                    old(db.resets)[Redeemable(old(db.resets), hash, old(db.book.now)).value].user) ==>
          SpentIn(db.View(), i)
    {
      ghost var past0, before := db.past, db.View();
      var hit := db.UseResetToken(r, hash, policyOk);
      if hit.None? { return false; }
      ghost var past1 := db.past;
      var user := db.resets[hit.value].user;
      assert user == before.resets[hit.value].user;
      Wait(db, r, others(23));
      ghost var past2 := db.past;
      LaterStill(past0, past1, past2);
      OwnedStays(db, past0, before, user);
      UserTokensStay(db, past0, before, user);
      ChangePassword(r, hit.value, user, swept, others);
      LaterStill(past0, past2, db.past);
      done := true;
    }

    method ChangePassword(r: nat, reset: nat, user: nat, swept: set<nat>, others: nat -> seq<Event>)
      requires Wired() && db.At(r, SetPassword(reset, user)) && Apart(others, r)
      modifies db
      ensures db.Valid() && Later(old(db.past), db.past) && r !in db.book.procs
      ensures forall sid: nat :: OwnedBy(old(db.View()), sid, user) ==> ClosedSession(db.View(), sid)
      ensures forall i: nat :: TokenOfUser(old(db.tokens), i, user) ==> SpentIn(db.View(), i)
    {
      ghost var past0, before := db.past, db.View();
      db.UpdatePassword(r, reset, user);
      ghost var past1 := db.past;
      Wait(db, r, others(24));
      ghost var past2 := db.past;
      LaterStill(past0, past1, past2);
      OwnedStays(db, past0, before, user);
      UserTokensStay(db, past0, before, user);
      sessions.RevokeAllForUser(r, user, swept, others);
      LaterStill(past0, past2, db.past);
    }

    /** Completes a login challenge: the code is right, the session still open, and its first tokens are issued. */
    method CompleteMfaChallenge(r: nat, id: nat, codeOk: bool, admin: bool, c: Choice, others: nat -> seq<Event>)
      returns (granted: Option<Grant>, ghost when: nat)
      requires Wired() && db.At(r, GetChallenge(id)) && Apart(others, r)
      modifies db
      ensures db.Valid() && Later(old(db.past), db.past) && r !in db.book.procs
      ensures granted.Some? ==>
        && codeOk && id in old(db.challenges) && old(db.challenges)[id].attempts < 3
        && granted.value == SignedIn(r, old(db.challenges)[id].session, DefaultScope(admin))
        && OpenSince(db.past, |old(db.past)| - 1, granted.value.session)
        && Paid(db.past, granted)
      ensures codeOk && id in old(db.challenges) && old(db.challenges)[id].attempts < 3 && granted.None? ==>
        && During(old(db.past), db.past, when)
        && (Unlucky(db.past[when], c) || !OpenIn(db.past[when], old(db.challenges)[id].session))
    {
      when := 0;
      ghost var past0 := db.past;
      var seen := LookUpChallenge(r, id, others);
      if seen.None? { return None, 0; }
      ghost var past1 := db.past;
      if seen.value.attempts >= MAX_MFA_ATTEMPTS {
        db.DiscardChallenge(r, id);
        LaterStill(past0, past1, db.past);
        return None, 0;
      }
      granted, when := AnswerChallenge(r, id, seen.value, codeOk, admin, c, others);
      LaterStill(past0, past1, db.past);
      if granted.Some? {
        OpenEarlier(db.past, |past1| - 1, |past0| - 1, granted.value.session);
      }
    }

    method LookUpChallenge(r: nat, id: nat, others: nat -> seq<Event>) returns (seen: Option<Challenge>)
      requires db.At(r, GetChallenge(id)) && Apart(others, r)
      modifies db
      ensures db.Valid() && Later(old(db.past), db.past)
      ensures seen == (if id in old(db.challenges) then Some(old(db.challenges)[id]) else None)
      ensures seen.None? ==> r !in db.book.procs
      ensures seen.Some? ==> db.At(r, if seen.value.attempts < 3 then CheckCode(id, seen.value) else DropChallenge(id))
    {
      ghost var past0 := db.past;
      seen := db.ReadChallenge(r, id);
      if seen.Some? {
        ghost var past1 := db.past;
        Wait(db, r, others(30));
        LaterStill(past0, past1, db.past);
      }
    }

    /** The code is checked, and if it is right the session read and its first token issued. */
    method AnswerChallenge(r: nat, id: nat, seen: Challenge, codeOk: bool, admin: bool, c: Choice,
          others: nat -> seq<Event>)
      returns (granted: Option<Grant>, ghost when: nat)
      requires Wired() && db.At(r, CheckCode(id, seen)) && Apart(others, r)
      modifies db
      ensures db.Valid() && Later(old(db.past), db.past) && r !in db.book.procs
      ensures granted.Some? ==>
        && codeOk && granted.value == SignedIn(r, seen.session, DefaultScope(admin))
        && OpenSince(db.past, |old(db.past)| - 1, seen.session) && Paid(db.past, granted)
      ensures codeOk && granted.None? ==>
        && During(old(db.past), db.past, when)
        && (Unlucky(db.past[when], c) || !OpenIn(db.past[when], seen.session))
    {
      ghost var past0 := db.past;
      var passed := VerifyLoginChallenge(r, id, seen, codeOk, others);
      if !passed { return None, 0; }
      ghost var past1 := db.past;
      granted, when := SignInVerified(r, id, seen.session, admin, c, others);
      LaterStill(past0, past1, db.past);
      if granted.Some? {
        OpenEarlier(db.past, |past1| - 1, |past0| - 1, seen.session);
      }
    }

    /** MfaService.verifyLoginChallenge after the challenge has been read. */
    method VerifyLoginChallenge(r: nat, id: nat, seen: Challenge, codeOk: bool, others: nat -> seq<Event>)
      returns (passed: bool)
      requires db.At(r, CheckCode(id, seen)) && Apart(others, r)
      modifies db
      ensures db.Valid() && Later(old(db.past), db.past) && passed == codeOk
      ensures if passed then db.At(r, GetCached(seen.session, ForMfa(id))) else r !in db.book.procs
    {
      ghost var past0 := db.past;
      db.Verify(r, id, seen, codeOk);
      ghost var past1 := db.past;
      Wait(db, r, others(31));
      ghost var past2 := db.past;
      LaterStill(past0, past1, past2);
      if !codeOk {
        db.CountAttempt(r, id, seen);
        LaterStill(past0, past2, db.past);
        return false;
      }
      db.MarkPassed(r, id, seen);
      ghost var past3 := db.past;
      LaterStill(past0, past2, past3);
      Wait(db, r, others(32));
      ghost var past4 := db.past;
      LaterStill(past0, past3, past4);
      db.SpendChallenge(r, id, seen);
      LaterStill(past0, past4, db.past);
      passed := true;
    }

    method SignInVerified(r: nat, id: nat, sid: nat, admin: bool, c: Choice, others: nat -> seq<Event>)
      returns (granted: Option<Grant>, ghost when: nat)
      requires Wired() && db.At(r, GetCached(sid, ForMfa(id))) && Apart(others, r)
      modifies db
      ensures db.Valid() && Later(old(db.past), db.past) && r !in db.book.procs
      ensures granted.Some? ==>
        granted.value == SignedIn(r, sid, DefaultScope(admin)) && OpenSince(db.past, |old(db.past)| - 1, sid) &&
          Paid(db.past, granted)
      ensures granted.None? ==>
        During(old(db.past), db.past, when) && (Unlucky(db.past[when], c) || !OpenIn(db.past[when], sid))
    {
      ghost var past0 := db.past;
      Wait(db, r, others(33));
      ghost var past1 := db.past;
      var found := sessions.FindById(r, sid, ForMfa(id), others);
      ghost var past2 := db.past;
      LaterStill(past0, past1, past2);
      Wait(db, r, others(34));
      ghost var past3 := db.past;
      LaterStill(past0, past2, past3);
      granted, when := IssueForSession(r, sid, found, id, admin, c, others);
      LaterStill(past0, past3, db.past);
      LaterStill(past2, past3, db.past);
      if granted.Some? {
        OpenRead(past2, |past1| - 1, db.past, |past0| - 1, sid, found.value);
      } else if found.None? || found.value.status != Open {
        when := ShutRead(past2, |past1| - 1, db.past, sid, found);
      }
    }

    method IssueForSession(r: nat, sid: nat, found: Option<SessionRow>, id: nat, admin: bool, c: Choice,
          others: nat -> seq<Event>)
      returns (granted: Option<Grant>, ghost when: nat)
      requires db.At(r, Resume(sid, found, ForMfa(id))) && Apart(others, r)
      modifies db
      ensures db.Valid() && Later(old(db.past), db.past) && r !in db.book.procs
      ensures granted.Some? ==>
        && found.Some? && found.value.status == Open
        && granted.value == SignedIn(r, sid, DefaultScope(admin)) && Paid(db.past, granted)
      ensures granted.None? && found.Some? && found.value.status == Open ==>
        During(old(db.past), db.past, when) && Unlucky(db.past[when], c)
    {
      ghost var past0 := db.past;
      db.IssueNext(r, sid, found, ForMfa(id), admin);
      if found.None? || found.value.status != Open { return None, 0; }
      ghost var past1 := db.past;
      var origin := found.value.origin;
      granted, when :=
        IssueFirstToken(db, r, sid, found.value.user, None, origin, DefaultScope(admin), c, others(35));
      LaterStill(past0, past1, db.past);
    }

    /** issueSessionTokens, for a login without a second factor. */
    method IssueSessionTokens(r: nat, user: nat, asOf: nat, admin: bool, c: Choice, others: nat -> seq<Event>)
      returns (granted: Option<Grant>, ghost when: nat)
      requires db.At(r, InsertSession(user, None, Password(asOf), "")) && Apart(others, r)
      modifies db
      ensures db.Valid() && Later(old(db.past), db.past) && r !in db.book.procs
      ensures granted.Some? ==>
        && granted.value == SignedIn(r, |old(db.sessions)|, DefaultScope(admin)) && Paid(db.past, granted)
        && OwnedBy(db.View(), |old(db.sessions)|, user)
      ensures granted.None? ==> During(old(db.past), db.past, when) && Unlucky(db.past[when], c)
    {
      ghost var past0 := db.past;
      var sid := db.CreateSession(r, user, None, Password(asOf), "", admin);
      ghost var past1, created := db.past, db.View();
      assert Last(past1, created) && OwnedBy(created, sid, user);
      granted, when := IssueFirstToken(db, r, sid, user, None, Password(asOf), DefaultScope(admin), c, others(36));
      LaterStill(past0, past1, db.past);
      OwnedStays(db, past1, created, user);
    }

    /** The MFA branch of login: a session without tokens, and a challenge with no attempts for it. */
    method ChallengeLogin(r: nat, user: nat, asOf: nat, id: nat, others: nat -> seq<Event>)
      returns (challenge: Option<nat>, ghost when: nat)
      requires db.At(r, InsertSession(user, None, SecondFactor(asOf), "")) && Apart(others, r)
      modifies db
      ensures db.Valid() && Later(old(db.past), db.past) && r !in db.book.procs
      ensures challenge.Some? ==>
        && challenge.value == id && id in db.challenges && db.challenges[id] == Challenge(user, |old(db.sessions)|, 0)
        && OwnedBy(db.View(), |old(db.sessions)|, user)
        && db.sessions[|old(db.sessions)|].origin.SecondFactor?
      ensures challenge.None? ==> During(old(db.past), db.past, when) && id in db.past[when].challengeIds
    {
      ghost var past0 := db.past;
      var sid := db.CreateSession(r, user, None, SecondFactor(asOf), "", false);
      ghost var past1, created := db.past, db.View();
      assert Last(past1, created) && OwnedBy(created, sid, user);
      challenge, when := SaveChallengeLater(r, user, sid, id, others);
      LaterStill(past0, past1, db.past);
      OwnedStays(db, past1, created, user);
    }

    method SaveChallengeLater(r: nat, user: nat, sid: nat, id: nat, others: nat -> seq<Event>)
      returns (challenge: Option<nat>, ghost when: nat)
      requires db.At(r, SetChallenge(user, sid)) && Apart(others, r)
      modifies db
      ensures db.Valid() && Later(old(db.past), db.past) && r !in db.book.procs
      ensures challenge.Some? ==>
        && challenge.value == id && id in db.challenges && db.challenges[id] == Challenge(user, sid, 0)
        && sid < |db.sessions| && db.sessions[sid].origin.SecondFactor?
      ensures challenge.None? ==> During(old(db.past), db.past, when) && id in db.past[when].challengeIds
    {
      ghost var past0 := db.past;
      Wait(db, r, others(37));
      ghost var past1 := db.past;
      when := |past1| - 1;
      challenge := SaveNewChallenge(r, user, sid, id);
      LaterStill(past0, past1, db.past);
    }

    /** createLoginChallenge: ids are drawn at random, so one that was drawn before fails the request. */
    method SaveNewChallenge(r: nat, user: nat, sid: nat, id: nat) returns (challenge: Option<nat>)
      requires db.At(r, SetChallenge(user, sid))
      modifies db
      ensures db.Valid() && Later(old(db.past), db.past) && r !in db.book.procs
      ensures challenge.Some? ==>
        && challenge.value == id && id in db.challenges && db.challenges[id] == Challenge(user, sid, 0)
        && sid < |db.sessions| && db.sessions[sid].origin.SecondFactor?
      ensures challenge.None? ==> id in db.past[|old(db.past)| - 1].challengeIds
    {
      ChallengedSession(db, r, user, sid);
      if id !in db.book.challengeIds {
        db.SaveChallenge(r, user, sid, id);
        challenge := Some(id);
      } else {
        db.Fails(r);
        challenge := None;
      }
    }

    /** The scope words of a first-party login. */
    method DefaultScopeForRoles(roles: seq<string>) returns (scope: string)
      ensures scope == DefaultScope("admin" in roles)
      ensures Words(scope) ==
        ["openid", "profile", "email", "api.read"] + if "admin" in roles then ["api.write"] else []
    {
      var scopes := ["openid", "profile", "email", "api.read"];
      if "admin" in roles {
        scopes := scopes + ["api.write"];
      }
      assert scopes == DefaultWords("admin" in roles);
      scope := Join(scopes);
      DefaultScopeWords("admin" in roles);
    }
  }

  lemma ChallengedSession(db: Database, r: nat, user: nat, sid: nat)
    requires db.At(r, SetChallenge(user, sid))
    ensures sid < |db.sessions| && db.sessions[sid].origin.SecondFactor?
  {
    ReachedInv(db);
    assert ProcOk(db.View(), db.View().procs[r]);
  }

  /** The first token of a family and the response; a clash of secrets or families fails the request. */
  method IssueRootToken(db: Database, r: nat, sid: nat, user: nat, client: Option<nat>, origin: Origin, scope: string,
        c: Choice)
    returns (granted: Option<Grant>)
    requires db.At(r, InsertRoot(sid, user, client, origin, scope))
    modifies db
    ensures db.Valid() && Later(old(db.past), db.past) && r !in db.book.procs
    ensures granted.Some? ==> granted.value == SignedIn(r, sid, scope) && Paid(db.past, granted)
    ensures granted.Some? <==> FreshSecret(old(db.View()), c.secret) && FreshFamily(old(db.View()), c.id)
    ensures granted.Some? ==>
      db.tokens == old(db.tokens) +
      [TokenRow(sid, user, client, Sha256(c.secret), c.id, None, scope, Active, old(db.book.now) + REFRESH_TOKEN_TTL)]
    ensures granted.None? ==> Unlucky(db.past[|old(db.past)| - 1], c)
  {
    if FreshSecret(db.View(), c.secret) && FreshFamily(db.View(), c.id) {
      db.IssueRoot(r, sid, user, client, origin, scope, c);
      granted := Some(SignedIn(r, sid, scope));
    } else {
      db.Fails(r);
      granted := None;
    }
  }

  /** The same some time after the statement before it. */
  method IssueFirstToken(db: Database, r: nat, sid: nat, user: nat, client: Option<nat>, origin: Origin,
        scope: string, c: Choice, meanwhile: seq<Event>)
    returns (granted: Option<Grant>, ghost when: nat)
    requires db.At(r, InsertRoot(sid, user, client, origin, scope)) && AllForeign(meanwhile, r)
    modifies db
    ensures db.Valid() && Later(old(db.past), db.past) && r !in db.book.procs
    ensures granted.Some? ==> granted.value == SignedIn(r, sid, scope) && Paid(db.past, granted)
    ensures granted.None? ==> During(old(db.past), db.past, when) && Unlucky(db.past[when], c)
  {
    ghost var past0 := db.past;
    Wait(db, r, meanwhile);
    ghost var past1 := db.past;
    when := |past1| - 1;
    granted := IssueRootToken(db, r, sid, user, client, origin, scope, c);
    LaterStill(past0, past1, db.past);
  }

  lemma OwnedStays(db: Database, past: seq<State>, s: State, user: nat)
    requires db.Valid() && Last(past, s) && Later(past, db.past)
    ensures forall sid: nat :: OwnedBy(s, sid, user) ==> OwnedBy(db.View(), sid, user)
  {
    PastGrows(db, past, s);
    forall sid: nat | OwnedBy(s, sid, user)
      ensures OwnedBy(db.View(), sid, user)
    {
      assert SessionGrows(s.sessions[sid], db.View().sessions[sid]);
    }
  }

  lemma OpenEarlier(past: seq<State>, since: nat, sooner: nat, sid: nat)
    requires OpenSince(past, since, sid) && sooner <= since
    ensures OpenSince(past, sooner, sid)
  {
  }

  /** No code may be exchanged for the client and form. */
  ghost predicate NoneExchangeable(s: State, client: nat, form: CodeForm) {
    forall i: nat :: !Exchangeable(s, client, form, i)
  }

  /** What a reading that does not lead on says. */
  lemma ReadForNothing(s: State, client: nat, form: CodeForm)
    requires UniqueHashes(s)
    requires var seen := ReadCode(s.codes, s.now, client, form);
      seen.Usable? ==> !Matches(form.verifier, s.codes[seen.code].challenge, s.codes[seen.code].codeMethod)
    ensures NoneExchangeable(s, client, form)
  {
    forall i: nat | i < |s.codes| && s.codes[i].hash == Sha256(form.code)
      ensures !Exchangeable(s, client, form, i)
    {
      assert CodeByHash(s.codes, Sha256(form.code)) == Some(i);
    }
  }

  lemma ConsumedForNothing(s: State, client: nat, form: CodeForm, code: nat)
    requires UniqueHashes(s) && code < |s.codes| && s.codes[code].hash == Sha256(form.code)
    requires s.codes[code].consumed.Some?
    ensures NoneExchangeable(s, client, form)
  {
  }

  /** The session was made for a code bound to this client and form, and the verifier met the code's challenge. */
  predicate BoundTo(s: State, sid: nat, client: nat, form: CodeForm) {
    && sid < |s.sessions| && s.sessions[sid].origin.FromCode?
    && var k := s.sessions[sid].origin.code;
       k < |s.codes| && Bound(s.codes[k], client, form)
  }

  predicate Exchanged(s: State, r: nat, client: nat, form: CodeForm, g: Grant) {
    g.SignedIn? && g.request == r && BoundTo(s, g.session, client, form)
  }

  /** The newest code row binds the code to the client, owner, redirect URI, scope and challenge of the request. */
  predicate IssuedLast(codes: seq<CodeRow>, f: AuthorizeForm, owner: nat, secret: Text, now: int) {
    && |codes| > 0
    && codes[|codes| - 1] == CodeRow(Sha256(secret), f.client, owner, f.redirect, f.scope, f.challenge, f.codeMethod,
                                     now + AUTHORIZATION_CODE_TTL, None)
  }

  /** The presented token is another client's, or lacks a scope word that is asked for. */
  ghost predicate PresentedElsewhere(t: seq<TokenRow>, hash: Text, via: Endpoint) {
    via.OAuthRefresh? &&
    exists i :: 0 <= i < |t| && t[i].hash == hash && (t[i].client != Some(via.client) || !MayAsk(via, t[i].scope))
  }

  class OAuthService {
    const db: Database
    const auth: AuthService

    constructor (db: Database)
      ensures Wired() && this.db == db
    {
      this.db := db;
      this.auth := new AuthService(db);
    }

    predicate Wired() { auth.db == db && auth.Wired() }

    /** The refresh_token grant, once the client is authenticated: the token must be the client's own. */
    method RefreshToken(r: nat, client: nat, requested: string, hash: Text, secret: Text, others: nat -> seq<Event>)
      returns (granted: Option<Grant>, ghost when: nat)
      requires Wired() && db.At(r, UpdateRotated(OAuthRefresh(client, requested), hash)) && Apart(others, r)
      modifies db
      ensures db.Valid() && Later(old(db.past), db.past) && r !in db.book.procs
      ensures RefreshedFor(db.past, |old(db.past)| - 1, r, Consumable(old(db.tokens), hash, old(db.book.now)), granted)
      ensures granted.Some? ==> Paid(db.past, granted)
      ensures granted.Some? ==>
        && PaidAgainst(old(db.tokens), hash, old(db.book.now), granted.value)
        && granted.value.via == OAuthRefresh(client, requested)
      ensures granted.None? ==>
        || MatchesJust(old(db.tokens), hash, old(db.book.now), false)
        || PresentedElsewhere(old(db.tokens), hash, OAuthRefresh(client, requested))
        || (During(old(db.past), db.past, when)
            && (!FreshSecret(db.past[when], secret) || PresentedShut(old(db.tokens), hash, db.past[when])))
    {
      ghost var past0, before := db.past, db.View();
      var via := OAuthRefresh(client, requested);
      var consumed;
      consumed, when := auth.refreshTokens.Consume(r, via, hash, secret, others);
      if !consumed.Succeeded? { return None, when; }
      assert before.tokens[consumed.presented].hash == hash;
      ghost var past1 := db.past;
      if consumed.row.client != Some(client) {
        Wait(db, r, others(40));
        ghost var past2 := db.past;
        LaterStill(past0, past1, past2);
        auth.refreshTokens.RevokeByToken(r, consumed.row.hash);
        LaterStill(past0, past2, db.past);
        return None, when;
      }
      granted, when := auth.Continue(r, via, consumed, others);
      LaterStill(past0, past1, db.past);
      if granted.Some? {
        OpenEarlier(db.past, |past1| - 1, |past0| - 1, granted.value.session);
      }
    }

    /**
     The authorization_code grant: peek and check PKCE, consume, and sign in; a consumed code revokes
     what it issued.
     */
    method ExchangeCode(r: nat, client: nat, form: CodeForm, c: Choice, others: nat -> seq<Event>)
      returns (granted: Option<Grant>, ghost when: nat)
      requires Wired() && db.At(r, PeekCode(client, form)) && Apart(others, r)
      modifies db
      ensures db.Valid() && Later(old(db.past), db.past) && r !in db.book.procs
      ensures granted.Some? ==> Exchanged(db.View(), r, client, form, granted.value) && Paid(db.past, granted)
      ensures granted.None? ==>
        && During(old(db.past), db.past, when)
        && (Unlucky(db.past[when], c) || NoneExchangeable(db.past[when], client, form))
    {
      ghost var past0 := db.past;
      when := |past0| - 1;
      var peeked := PeekUsable(r, client, form);
      if peeked.Unusable? { return None, when; }
      ghost var past1 := db.past;
      var owner := db.codes[peeked.code].user;
      Wait(db, r, others(41));
      ghost var past2 := db.past;
      LaterStill(past0, past1, past2);
      if peeked.Replayed? {
        db.RevokeForReplay(r, peeked.code, owner, client);
        LaterStill(past0, past2, db.past);
        return None, when;
      }
      granted, when := ConsumeAndIssue(r, client, form, peeked.code, c, others);
      LaterStill(past0, past2, db.past);
    }

    /** The peek and the PKCE check: a wrong verifier is as good as no code. */
    method PeekUsable(r: nat, client: nat, form: CodeForm) returns (peeked: Reading)
      requires db.At(r, PeekCode(client, form))
      modifies db
      ensures db.Valid() && Later(old(db.past), db.past)
      ensures peeked.Unusable? ==> r !in db.book.procs
      ensures !peeked.Unusable? ==> peeked.code < |db.codes|
      ensures peeked.Usable? ==> db.At(r, SelectCode(client, form, peeked.code))
      ensures peeked.Replayed? ==> db.At(r, RevokeReplayed(peeked.code, db.codes[peeked.code].user, client))
      ensures !peeked.Usable? ==> NoneExchangeable(db.past[|old(db.past)| - 1], client, form)
    {
      ghost var before := db.View();
      ReachedInv(db);
      peeked := db.Peek(r, client, form);
      if peeked.Usable? && !Matches(form.verifier, db.codes[peeked.code].challenge, db.codes[peeked.code].codeMethod) {
        ReadForNothing(before, client, form);
        return Unusable;
      }
      if !peeked.Usable? {
        ReadForNothing(before, client, form);
      }
    }

    /** Losing the race for the code, like finding it consumed, is a replay. */
    method ConsumeAndIssue(r: nat, client: nat, form: CodeForm, peeked: nat, c: Choice, others: nat -> seq<Event>)
      returns (granted: Option<Grant>, ghost when: nat)
      requires Wired() && db.At(r, SelectCode(client, form, peeked)) && Apart(others, r)
      modifies db
      ensures db.Valid() && Later(old(db.past), db.past) && r !in db.book.procs
      ensures granted.Some? ==> Exchanged(db.View(), r, client, form, granted.value) && Paid(db.past, granted)
      ensures granted.None? ==>
        && During(old(db.past), db.past, when)
        && (Unlucky(db.past[when], c) || NoneExchangeable(db.past[when], client, form))
    {
      ghost var past0 := db.past;
      when := |past0| - 1;
      var seen := SelectUsable(r, client, form, peeked);
      if seen.Unusable? { return None, when; }
      ghost var past1 := db.past;
      var owner := db.codes[seen.code].user;
      Wait(db, r, others(42));
      ghost var past2 := db.past;
      LaterStill(past0, past1, past2);
      if seen.Replayed? {
        db.RevokeForReplay(r, seen.code, owner, client);
        LaterStill(past0, past2, db.past);
        return None, when;
      }
      granted, when := WinAndIssue(r, client, form, seen.code, c, others);
      LaterStill(past0, past2, db.past);
    }

    /** The SELECT of consume. */
    method SelectUsable(r: nat, client: nat, form: CodeForm, peeked: nat) returns (seen: Reading)
      requires db.At(r, SelectCode(client, form, peeked))
      modifies db
      ensures db.Valid() && Later(old(db.past), db.past)
      ensures seen.Unusable? ==> r !in db.book.procs
      ensures !seen.Unusable? ==> seen.code < |db.codes|
      ensures seen.Usable? ==> db.At(r, ConsumeCode(client, form, seen.code))
      ensures seen.Replayed? ==> db.At(r, RevokeReplayed(seen.code, db.codes[seen.code].user, client))
      ensures !seen.Usable? ==> NoneExchangeable(db.past[|old(db.past)| - 1], client, form)
    {
      ghost var before := db.View();
      ReachedInv(db);
      seen := db.SelectAgain(r, client, form, peeked);
      if !seen.Usable? {
        ReadForNothing(before, client, form);
      }
    }

    method WinAndIssue(r: nat, client: nat, form: CodeForm, code: nat, c: Choice, others: nat -> seq<Event>)
      returns (granted: Option<Grant>, ghost when: nat)
      requires Wired() && db.At(r, ConsumeCode(client, form, code)) && Apart(others, r)
      modifies db
      ensures db.Valid() && Later(old(db.past), db.past) && r !in db.book.procs
      ensures code < |old(db.codes)| && old(db.codes)[code].consumed.Some? ==> granted.None?
      ensures granted.Some? ==> Exchanged(db.View(), r, client, form, granted.value) && Paid(db.past, granted)
      ensures granted.None? ==>
        && During(old(db.past), db.past, when)
        && (Unlucky(db.past[when], c) || NoneExchangeable(db.past[when], client, form))
    {
      ghost var past0 := db.past;
      when := |past0| - 1;
      var won, row := ConsumeOrLose(r, client, form, code);
      ghost var past1 := db.past;
      if won {
        granted, when := IssueUserTokens(r, code, row.user, client, form, row.scope, c, others);
      } else {
        RevokeForReplayLater(r, code, row.user, client, others);
        granted := None;
      }
      LaterStill(past0, past1, db.past);
    }

    /** The conditional UPDATE; the code stays bound to the request either way. */
    method ConsumeOrLose(r: nat, client: nat, form: CodeForm, code: nat) returns (won: bool, row: CodeRow)
      requires db.At(r, ConsumeCode(client, form, code))
      modifies db
      ensures db.Valid() && Later(old(db.past), db.past)
      ensures code < |old(db.codes)| && code < |db.codes| && Bound(db.codes[code], client, form)
      ensures row == old(db.codes)[code] && (won <==> row.consumed.None?)
      ensures db.At(r, if won then InsertSession(row.user, Some(client), FromCode(code), row.scope)
                       else RevokeReplayed(code, row.user, client))
      ensures !won ==> NoneExchangeable(db.past[|old(db.past)| - 1], client, form)
    {
      ghost var before := db.View();
      ReachedInv(db);
      CodeIsBound(db, r, client, form, code);
      if db.codes[code].consumed.Some? {
        ConsumedForNothing(before, client, form, code);
      }
      row := db.codes[code];
      won := db.Consume(r, client, form, code);
    }

    method RevokeForReplayLater(r: nat, code: nat, user: nat, client: nat, others: nat -> seq<Event>)
      requires db.At(r, RevokeReplayed(code, user, client)) && Apart(others, r)
      modifies db
      ensures db.Valid() && Later(old(db.past), db.past) && r !in db.book.procs
    {
      ghost var past0 := db.past;
      Wait(db, r, others(43));
      ghost var past1 := db.past;
      db.RevokeForReplay(r, code, user, client);
      LaterStill(past0, past1, db.past);
    }

    method IssueUserTokens(r: nat, code: nat, user: nat, client: nat, ghost form: CodeForm, scope: string,
          c: Choice, others: nat -> seq<Event>)
      returns (granted: Option<Grant>, ghost when: nat)
      requires db.At(r, InsertSession(user, Some(client), FromCode(code), scope)) && Apart(others, r)
      requires code < |db.codes| && Bound(db.codes[code], client, form)
      modifies db
      ensures db.Valid() && Later(old(db.past), db.past) && r !in db.book.procs
      ensures granted.Some? ==>
        && Exchanged(db.View(), r, client, form, granted.value) && granted.value.scope == scope
        && Paid(db.past, granted)
      ensures granted.None? ==> During(old(db.past), db.past, when) && Unlucky(db.past[when], c)
    {
      ghost var past0, before := db.past, db.View();
      Wait(db, r, others(43));
      ghost var past1 := db.past;
      granted, when := IssueOnSession(r, code, user, client, scope, c, others);
      LaterStill(past0, past1, db.past);
      CodeStaysBound(db, past0, before, client, form, code);
    }

    method IssueOnSession(r: nat, code: nat, user: nat, client: nat, scope: string, c: Choice,
          others: nat -> seq<Event>)
      returns (granted: Option<Grant>, ghost when: nat)
      requires db.At(r, InsertSession(user, Some(client), FromCode(code), scope)) && Apart(others, r)
      modifies db
      ensures db.Valid() && Later(old(db.past), db.past) && r !in db.book.procs
      ensures granted.Some? ==>
        && granted.value.SignedIn? && granted.value.request == r && granted.value.scope == scope
        && Paid(db.past, granted) && MadeFor(db.View(), granted.value.session, code)
      ensures granted.None? ==> During(old(db.past), db.past, when) && Unlucky(db.past[when], c)
    {
      ghost var past0 := db.past;
      var sid := db.CreateSession(r, user, Some(client), FromCode(code), scope, false);
      ghost var past1, created := db.past, db.View();
      assert Last(past1, created) && MadeFor(created, sid, code);
      granted, when := IssueFirstToken(db, r, sid, user, Some(client), FromCode(code), scope, c, others(44));
      LaterStill(past0, past1, db.past);
      OriginStays(db, past1, created, sid, code);
    }

    /**
     authorize, once the user is known: a code bound to what was asked, for no more scope than the client
     is allowed.
     */
    method Authorize(r: nat, f: AuthorizeForm, wellFormed: bool, secret: Text, others: nat -> seq<Event>)
      returns (code: Option<Text>, ghost when: nat)
      requires Wired() && db.At(r, SelectAuthorizingClient(f)) && Apart(others, r)
      modifies db
      ensures db.Valid() && Later(old(db.past), db.past) && r !in db.book.procs
      ensures code.Some? ==>
        && code.value == secret && AllowedTo(old(db.clients), f) && wellFormed
        && IssuedLast(db.codes, f, f.user.value, secret, db.book.now)
      ensures !(AllowedTo(old(db.clients), f) && wellFormed) ==>
        code.None? && db.View() == Finish(old(db.View()), r)
      ensures AllowedTo(old(db.clients), f) && wellFormed && code.None? ==>
        During(old(db.past), db.past, when) && !FreshSecret(db.past[when], secret)
    {
      ghost var past0 := db.past;
      var ok := db.SelectAuthorizing(r, f, wellFormed);
      if !ok { return None, 0; }
      ghost var past1 := db.past;
      code, when := IssueCodeLater(r, f, f.user.value, secret, others);
      LaterStill(past0, past1, db.past);
    }

    method IssueCodeLater(r: nat, f: AuthorizeForm, owner: nat, secret: Text, others: nat -> seq<Event>)
      returns (code: Option<Text>, ghost when: nat)
      requires db.At(r, InsertCode(f, owner)) && Apart(others, r)
      modifies db
      ensures db.Valid() && Later(old(db.past), db.past) && r !in db.book.procs
      ensures code.Some? ==> code.value == secret && IssuedLast(db.codes, f, owner, secret, db.book.now)
      ensures code.None? ==> During(old(db.past), db.past, when) && !FreshSecret(db.past[when], secret)
    {
      ghost var past0 := db.past;
      Wait(db, r, others(46));
      ghost var past1 := db.past;
      when := |past1| - 1;
      code := IssueCode(r, f, owner, secret);
      LaterStill(past0, past1, db.past);
    }

    method IssueCode(r: nat, f: AuthorizeForm, owner: nat, secret: Text) returns (code: Option<Text>)
      requires db.At(r, InsertCode(f, owner))
      modifies db
      ensures db.Valid() && Later(old(db.past), db.past) && r !in db.book.procs
      ensures code.Some? ==> code.value == secret && IssuedLast(db.codes, f, owner, secret, db.book.now)
      ensures code.None? ==> !FreshSecret(db.past[|old(db.past)| - 1], secret)
    {
      if FreshSecret(db.View(), secret) {
        db.SaveCode(r, f, owner, secret);
        code := Some(secret);
      } else {
        db.Fails(r);
        code := None;
      }
    }

    method Identify(r: nat, client: nat, clientSecret: Option<Text>, grant: TokenForm) returns (granted: Option<Grant>)
      requires db.At(r, SelectClient(client, clientSecret, grant))
      modifies db
      ensures db.Valid() && Later(old(db.past), db.past) && Paid(db.past, granted)
      ensures granted.Some? ==> r !in db.book.procs && grant.CredentialsGrant?
      ensures r in db.book.procs ==>
        !grant.CredentialsGrant? &&
        db.At(r, if grant.CodeGrant? then PeekCode(client, grant.form)
                 else UpdateRotated(OAuthRefresh(client, grant.scope), Sha256(grant.token)))
      ensures !grant.CredentialsGrant? ==> (r in db.book.procs <==> Authentic(old(db.clients), client, clientSecret))
      ensures grant.CredentialsGrant? ==>
        (granted.Some? <==> Credentialed(old(db.clients), client, clientSecret, grant.scope))
      ensures granted.Some? ==>
        granted.value.ClientToken? && granted.value.client == client && Words(granted.value.scope) == Words(grant.scope)
    {
      ghost var before := db.View();
      granted := db.IdentifyClient(r, client, clientSecret, grant);
      TakesRotating(before, r, SelectClient(client, clientSecret, grant), ANY);
      if grant.CredentialsGrant? {
        CredentialsPayExactly(before, r, ANY, client, clientSecret, grant.scope);
      } else {
        TokenEndpointAdmits(before, r, ANY, client, clientSecret, grant);
      }
      if granted.Some? {
        SplitJoin(Words(grant.scope));
      }
    }

    /** The token endpoint: the client is identified, then each grant goes its way. */
    method Token(r: nat, client: nat, clientSecret: Option<Text>, grant: TokenForm, c: Choice,
          others: nat -> seq<Event>)
      returns (granted: Option<Grant>)
      requires Wired() && db.At(r, SelectClient(client, clientSecret, grant)) && Apart(others, r)
      modifies db
      ensures db.Valid() && Later(old(db.past), db.past) && r !in db.book.procs
      ensures granted.Some? ==> Paid(db.past, granted)
      ensures granted.Some? ==> Authentic(old(db.clients), client, clientSecret)
      ensures grant.CredentialsGrant? ==>
        (granted.Some? <==> Credentialed(old(db.clients), client, clientSecret, grant.scope))
      ensures granted.Some? ==> match grant
        case CredentialsGrant(scope) =>
          granted.value.ClientToken? && granted.value.client == client && Words(granted.value.scope) == Words(scope)
        case CodeGrant(form) => granted.value.SignedIn? && BoundTo(db.View(), granted.value.session, client, form)
        case RefreshGrant(_, scope) =>
          && granted.value.Refreshed? && granted.value.via == OAuthRefresh(client, scope)
          && OpenSince(db.past, |old(db.past)| - 1, granted.value.session)
    {
      ghost var past0 := db.past;
      granted := Identify(r, client, clientSecret, grant);
      if r !in db.book.procs { return granted; }
      ghost var past1 := db.past;
      Wait(db, r, others(47));
      ghost var past2 := db.past;
      LaterStill(past0, past1, past2);
      if grant.CodeGrant? {
        ghost var when;
        granted, when := ExchangeCode(r, client, grant.form, c, others);
      } else {
        ghost var when;
        granted, when := RefreshToken(r, client, grant.scope, Sha256(grant.token), c.secret, others);
        if granted.Some? {
          OpenEarlier(db.past, |past2| - 1, |past0| - 1, granted.value.session);
        }
      }
      LaterStill(past0, past2, db.past);
    }

    /** RFC 7009: a refresh token is revoked in its row; an access token ends its session. */
    method Revoke(r: nat, hash: Text, sid: Option<nat>, others: nat -> seq<Event>)
      requires Wired() && db.At(r, RevokePresented(hash, sid)) && Apart(others, r)
      modifies db
      ensures db.Valid() && Later(old(db.past), db.past) && r !in db.book.procs
      ensures TokenByHash(old(db.tokens), hash).None? && sid.Some? && sid.value < |old(db.sessions)| ==>
        ClosedSession(db.View(), sid.value)
      ensures TokenByHash(old(db.tokens), hash).Some? ==>
        TokenByHash(old(db.tokens), hash).value < |db.tokens| &&
          db.tokens[TokenByHash(old(db.tokens), hash).value].status == Revoked
    {
      ghost var past0, known := db.past, TokenByHash(db.tokens, hash);
      var wasRefresh := db.RevokeIfRefresh(r, hash, sid);
      ghost var past1, after := db.past, db.View();
      assert Last(past1, after) && (known.Some? ==> RevokedIn(after, known.value));
      if !wasRefresh && sid.Some? {
        Wait(db, r, others(45));
        ghost var past2 := db.past;
        SessionsStay(db, past1, after);
        auth.sessions.Revoke(r, sid.value, None, others);
        LaterStill(past1, past2, db.past);
        LaterStill(past0, past1, db.past);
      } else {
        LaterStill(past0, past1, db.past);
      }
      RevokedStays(db, past1, after);
    }
  }

  predicate RevokedIn(s: State, i: nat) { i < |s.tokens| && s.tokens[i].status == Revoked }

  /** Revoked is terminal. */
  lemma RevokedStays(db: Database, past: seq<State>, s: State)
    requires db.Valid() && Last(past, s) && Later(past, db.past)
    ensures forall i: nat :: RevokedIn(s, i) ==> RevokedIn(db.View(), i)
  {
    PastGrows(db, past, s);
    forall i: nat | RevokedIn(s, i)
      ensures RevokedIn(db.View(), i)
    {
      assert TokenGrows(s.tokens[i], db.View().tokens[i]);
    }
  }

  lemma SessionsStay(db: Database, past: seq<State>, s: State)
    requires db.Valid() && Last(past, s) && Later(past, db.past)
    ensures |s.sessions| <= |db.sessions|
  {
    PastGrows(db, past, s);
  }

  predicate MadeFor(s: State, sid: nat, code: nat) {
    sid < |s.sessions| && s.sessions[sid].origin == FromCode(code)
  }

  lemma OriginStays(db: Database, past: seq<State>, s: State, sid: nat, code: nat)
    requires db.Valid() && Last(past, s) && Later(past, db.past) && MadeFor(s, sid, code)
    ensures MadeFor(db.View(), sid, code)
  {
    PastGrows(db, past, s);
    assert SessionGrows(s.sessions[sid], db.View().sessions[sid]);
  }

  lemma CodeIsBound(db: Database, r: nat, client: nat, form: CodeForm, code: nat)
    requires db.At(r, ConsumeCode(client, form, code))
    ensures code < |db.codes| && Bound(db.codes[code], client, form)
  {
    ReachedInv(db);
    assert ProcOk(db.View(), db.View().procs[r]);
  }

  lemma CodeStaysBound(db: Database, past: seq<State>, s: State, client: nat, form: CodeForm, code: nat)
    requires db.Valid() && Last(past, s) && Later(past, db.past) && code < |s.codes|
    requires Bound(s.codes[code], client, form)
    ensures code < |db.codes| && Bound(db.codes[code], client, form)
  {
    PastGrows(db, past, s);
    assert CodeGrows(s.codes[code], db.View().codes[code]);
  }
}
