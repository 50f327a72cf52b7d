/**
 The services as they are written: methods that execute one statement after another against the
 shared database, while the other requests do whatever they like in between. Every execution of
 one is a run of the transition system, so what is proved about runs holds of the methods.
 */
module Services {
  import opened Basics
  import opened Tables
  import opened Machine
  import opened Invariant
  import opened Preservation
  import opened Steps
  import opened Families
  import opened Sessions
  import opened Server

  /** An event that is not request r's. */
  predicate Foreign(e: Event, r: nat) {
    match e
    case Arrive(q, _) => q != r
    case Step(q, _) => q != r
    case Abort(q) => q != r
    case _ => true
  }

  ghost predicate AllForeign(es: seq<Event>, r: nat) {
    forall i :: 0 <= i < |es| ==> Foreign(es[i], r)
  }

  /** What the other requests and the environment do in each pause of request r. */
  ghost predicate Apart(others: nat -> seq<Event>, r: nat) {
    forall k :: AllForeign(others(k), r)
  }

  lemma ForeignKeeps(s: State, e: Event, r: nat)
    requires Inv(s) && Foreign(e, r) && r in s.procs
    ensures r in Apply(s, e).procs && Apply(s, e).procs[r] == s.procs[r]
    ensures Inv(Apply(s, e))
  {
    var s' := Apply(s, e);
    EventGood(s, e);
    EventHonest(s, e, 0);
    assert Actor(s, e) != r;
    OthersStay(s, s', Actor(s, e), r);
  }

  lemma ReachedInv(db: Database)
    requires db.Valid()
    ensures Inv(db.View())
  {
    assert Reachable(db.View()) by {
      assert Recorded(db.past, db.log, db.View());
    }
    ReachableSound(db.View());
  }

  /** The past a is part of the past b. */
  ghost predicate Later(a: seq<State>, b: seq<State>) {
    |a| <= |b| && forall i {:trigger b[i]} :: 0 <= i < |a| ==> b[i] == a[i]
  }

  lemma LaterStill(a: seq<State>, b: seq<State>, c: seq<State>)
    requires Later(a, b) && Later(b, c)
    ensures Later(a, c)
  {
  }

  /** While request r waits for its next statement. */
  method Wait(db: Database, r: nat, es: seq<Event>)
    requires db.Valid() && r in db.book.procs && AllForeign(es, r)
    modifies db
    ensures db.At(r, old(db.book.procs[r])) && Later(old(db.past), db.past)
  {
    var i := 0;
    while i < |es|
      invariant i <= |es| && db.At(r, old(db.book.procs[r])) && Later(old(db.past), db.past)
    {
      ReachedInv(db);
      ForeignKeeps(db.View(), es[i], r);
      db.Happens(es[i]);
      i := i + 1;
    }
  }

  // SessionRepository

  /** In some state since then a direct read of the sessions table would have answered so. */
  ghost predicate ReadSince(past: seq<State>, since: nat, sid: nat, found: Option<SessionRow>) {
    exists n: nat :: since <= n < |past| && Answers(found, SessionById(past[n].sessions, sid))
  }

  lemma StillRead(a: seq<State>, b: seq<State>, since: nat, sid: nat, found: Option<SessionRow>)
    requires ReadSince(a, since, sid, found) && Later(a, b)
    ensures ReadSince(b, since, sid, found)
  {
    var n: nat :| since <= n < |a| && Answers(found, SessionById(a[n].sessions, sid));
    assert b[n] == a[n];
  }

  lemma ReadNow(past: seq<State>, sid: nat, found: Option<SessionRow>)
    requires |past| > 0 && Answers(found, SessionById(past[|past| - 1].sessions, sid))
    ensures ReadSince(past, |past| - 1, sid, found)
  {
  }

  /** A closed session in the cache is closed in the database. */
  lemma ClosedHitIsRead(db: Database, sid: nat)
    requires db.Valid() && sid in db.cache && db.cache[sid].status == Closed
    ensures ReadSince(db.past, |db.past| - 1, sid, Some(db.cache[sid]))
  {
    ReachedInv(db);
    assert Snapshot(db.View().sessions, sid, db.View().cache[sid]);
    ReadNow(db.past, sid, Some(db.cache[sid]));
  }

  predicate OwnedBy(s: State, sid: nat, user: nat) { sid < |s.sessions| && s.sessions[sid].user == user }

  class SessionRepository {
    const db: Database

    constructor (db: Database)
      ensures this.db == db
    {
      this.db := db;
    }

    /**
     The fast path only ever answers with a closed session; whatever is returned, the database said at
     some moment of the call.
     */
    method FindById(r: nat, sid: nat, why: Purpose, others: nat -> seq<Event>) returns (found: Option<SessionRow>)
      requires db.At(r, GetCached(sid, why)) && Apart(others, r)
      modifies db
      ensures db.At(r, Resume(sid, found, why))
      ensures Later(old(db.past), db.past) && ReadSince(db.past, |old(db.past)| - 1, sid, found)
    {
      ghost var past0 := db.past;
      if sid in db.cache && db.cache[sid].status == Closed {
        ClosedHitIsRead(db, sid);
      }
      var cached := db.GetSession(r, sid, why);
      if cached.Some? && cached.value.status != Open {
        StillRead(past0, db.past, |past0| - 1, sid, cached);
        return cached;
      }
      ghost var past1 := db.past;
      LaterStill(past0, past0, past1);
      Wait(db, r, others(0));
      ghost var past2 := db.past;
      LaterStill(past0, past1, past2);
      found := LoadOrDrop(r, sid, cached.Some?, why, others);
      LaterStill(past0, past2, db.past);
    }

    method LoadOrDrop(r: nat, sid: nat, hit: bool, why: Purpose, others: nat -> seq<Event>)
      returns (found: Option<SessionRow>)
      requires db.At(r, SelectSession(sid, hit, why)) && Apart(others, r)
      modifies db
      ensures db.At(r, Resume(sid, found, why))
      ensures Later(old(db.past), db.past) && ReadSince(db.past, |old(db.past)| - 1, sid, found)
    {
      ghost var past0 := db.past;
      found := LoadFresh(r, sid, hit, why, others);
      ghost var past1 := db.past;
      if hit && found.None? {
        Wait(db, r, others(2));
        ghost var past2 := db.past;
        LaterStill(past0, past1, past2);
        StillRead(past1, past2, |past0| - 1, sid, found);
        db.DropSession(r, sid, why);
        LaterStill(past0, past2, db.past);
        StillRead(past2, db.past, |past0| - 1, sid, found);
      }
    }

    method LoadFresh(r: nat, sid: nat, hit: bool, why: Purpose, others: nat -> seq<Event>)
      returns (row: Option<SessionRow>)
      requires db.At(r, SelectSession(sid, hit, why)) && Apart(others, r)
      modifies db
      ensures db.At(r, if row.None? && hit then DelCached(sid, why) else Resume(sid, row, why))
      ensures Later(old(db.past), db.past) && ReadSince(db.past, |old(db.past)| - 1, sid, row)
    {
      ghost var past0 := db.past;
      ReadNow(past0, sid, SessionById(db.sessions, sid));
      row := db.SelectById(r, sid, hit, why);
      ghost var past1 := db.past;
      StillRead(past0, past1, |past0| - 1, sid, row);
      if row.Some? {
        Wait(db, r, others(1));
        ghost var past2 := db.past;
        LaterStill(past0, past1, past2);
        StillRead(past1, past2, |past0| - 1, sid, row);
        db.SetSession(r, sid, row.value, why);
        LaterStill(past0, past2, db.past);
        StillRead(past2, db.past, |past0| - 1, sid, row);
      }
    }

    /** Revokes a session; its statements name the session, its active tokens and its cache entry. */
    method Revoke(r: nat, sid: nat, refresh: Option<Text>, others: nat -> seq<Event>)
      requires db.At(r, EndSession(sid, refresh)) && Apart(others, r)
      modifies db
      ensures db.Valid() && Later(old(db.past), db.past)
      ensures if refresh.Some? then db.At(r, RevokeByToken(refresh.value)) else r !in db.book.procs
      ensures sid < |old(db.sessions)| ==> ClosedSession(db.View(), sid)
      ensures forall i: nat :: TokenOfSession(old(db.tokens), i, sid) ==> SpentIn(db.View(), i)
    {
      ghost var past0, before, known := db.past, db.View(), sid < |db.sessions|;
      db.CloseSession(r, sid, refresh);
      ghost var past1, closed := db.past, db.View();
      assert Last(past1, closed) && (known ==> ClosedSession(closed, sid));
      Wait(db, r, others(3));
      ghost var past2 := db.past;
      LaterStill(past0, past1, past2);
      SessionTokensStay(db, past0, before, sid);
      RevokeTokensAndUncache(r, sid, refresh, others);
      LaterStill(past1, past2, db.past);
      LaterStill(past0, past1, db.past);
      StaysClosed(db, past1, closed, sid);
    }

    method RevokeTokensAndUncache(r: nat, sid: nat, refresh: Option<Text>, others: nat -> seq<Event>)
      requires db.At(r, EndSessionTokens(sid, refresh)) && Apart(others, r)
      modifies db
      ensures db.Valid() && Later(old(db.past), db.past)
      ensures if refresh.Some? then db.At(r, RevokeByToken(refresh.value)) else r !in db.book.procs
      ensures forall i: nat :: TokenOfSession(old(db.tokens), i, sid) ==> SpentIn(db.View(), i)
    {
      ghost var past0, before := db.past, db.View();
      db.RevokeOfSession(r, sid, refresh);
      ghost var past1, after := db.past, db.View();
      assert forall i: nat :: TokenOfSession(before.tokens, i, sid) ==> SpentIn(after, i);
      Wait(db, r, others(4));
      ghost var past2 := db.past;
      LaterStill(past0, past1, past2);
      db.UncacheSession(r, sid, refresh);
      LaterStill(past0, past2, db.past);
      LaterStill(past1, past2, db.past);
      SpentStays(db, past1, after);
    }

    /** Revokes every session of a user; swept are the cache keys the scan saw. */
    method RevokeAllForUser(r: nat, user: nat, swept: set<nat>, others: nat -> seq<Event>)
      requires db.At(r, EndUserSessions(user)) && Apart(others, r)
      modifies db
      ensures db.Valid() && Later(old(db.past), db.past) && r !in db.book.procs
      ensures forall sid: nat :: OwnedBy(old(db.View()), sid, user) ==> ClosedSession(db.View(), sid)
      ensures forall i: nat :: TokenOfUser(old(db.tokens), i, user) ==> SpentIn(db.View(), i)
    {
      ghost var past0, before := db.past, db.View();
      db.CloseAllOf(r, user);
      ghost var past1, closed := db.past, db.View();
      assert Last(past1, closed) && forall sid: nat :: OwnedBy(before, sid, user) ==> ClosedSession(closed, sid);
      Wait(db, r, others(5));
      ghost var past2 := db.past;
      LaterStill(past0, past1, past2);
      UserTokensStay(db, past0, before, user);
      RevokeTokensAndUncacheAll(r, user, swept, others);
      LaterStill(past1, past2, db.past);
      LaterStill(past0, past1, db.past);
      forall sid: nat | OwnedBy(before, sid, user)
        ensures ClosedSession(db.View(), sid)
      {
        StaysClosed(db, past1, closed, sid);
      }
    }

    method RevokeTokensAndUncacheAll(r: nat, user: nat, swept: set<nat>, others: nat -> seq<Event>)
      requires db.At(r, EndUserTokens(user)) && Apart(others, r)
      modifies db
      ensures db.Valid() && Later(old(db.past), db.past) && r !in db.book.procs
      ensures forall i: nat :: TokenOfUser(old(db.tokens), i, user) ==> SpentIn(db.View(), i)
    {
      ghost var past0, before := db.past, db.View();
      db.RevokeAllOf(r, user);
      ghost var past1, after := db.past, db.View();
      assert forall i: nat :: TokenOfUser(before.tokens, i, user) ==> SpentIn(after, i);
      Wait(db, r, others(6));
      ghost var past2 := db.past;
      LaterStill(past0, past1, past2);
      db.UncacheAll(r, swept);
      LaterStill(past0, past2, db.past);
      LaterStill(past1, past2, db.past);
      SpentStays(db, past1, after);
    }
  }

  ghost predicate Last(past: seq<State>, s: State) { |past| > 0 && past[|past| - 1] == s }

  /** What a past state had, the present one still has. */
  lemma PastGrows(db: Database, past: seq<State>, s: State)
    requires db.Valid() && Last(past, s) && Later(past, db.past)
    ensures Grows(s, db.View())
  {
    assert db.past[|past| - 1] == past[|past| - 1];
    RecordedGrows(db.past, db.log, |past| - 1);
  }

  lemma RecordedGrows(past: seq<State>, log: seq<Event>, n: nat)
    requires |past| > 0 && Recorded(past, log, past[|past| - 1]) && n < |past|
    ensures Grows(past[n], past[|past| - 1])
  {
    RecordedIsRun(past, log, n);
    RecordedIsRun(past, log, |log|);
    assert log[..|log|] == log[..n] + log[n..];
    RunConcat(Init, log[..n], log[n..]);
    ReachableInv(log[..n]);
    RunKept(Run(Init, log[..n]), log[n..]);
  }

  predicate SpentIn(s: State, i: nat) { i < |s.tokens| && s.tokens[i].status != Active }

  /** A token that is not active never is again. */
  lemma SpentStays(db: Database, past: seq<State>, s: State)
    requires db.Valid() && Last(past, s) && Later(past, db.past)
    ensures forall i: nat :: SpentIn(s, i) ==> SpentIn(db.View(), i)
  {
    PastGrows(db, past, s);
    forall i: nat | SpentIn(s, i)
      ensures SpentIn(db.View(), i)
    {
      assert TokenGrows(s.tokens[i], db.View().tokens[i]);
    }
  }

  predicate TokenOfSession(t: seq<TokenRow>, i: nat, sid: nat) { i < |t| && t[i].session == sid }

  predicate TokenOfUser(t: seq<TokenRow>, i: nat, user: nat) { i < |t| && t[i].user == user }

  /** Rows stay where they are, with their session and user. */
  lemma SessionTokensStay(db: Database, past: seq<State>, s: State, sid: nat)
    requires db.Valid() && Last(past, s) && Later(past, db.past)
    ensures forall i: nat :: TokenOfSession(s.tokens, i, sid) ==> TokenOfSession(db.tokens, i, sid)
  {
    PastGrows(db, past, s);
    forall i: nat | TokenOfSession(s.tokens, i, sid)
      ensures TokenOfSession(db.tokens, i, sid)
    {
      assert TokenGrows(s.tokens[i], db.View().tokens[i]);
    }
  }

  lemma UserTokensStay(db: Database, past: seq<State>, s: State, user: nat)
    requires db.Valid() && Last(past, s) && Later(past, db.past)
    ensures forall i: nat :: TokenOfUser(s.tokens, i, user) ==> TokenOfUser(db.tokens, i, user)
  {
    PastGrows(db, past, s);
    forall i: nat | TokenOfUser(s.tokens, i, user)
      ensures TokenOfUser(db.tokens, i, user)
    {
      assert TokenGrows(s.tokens[i], db.View().tokens[i]);
    }
  }

  lemma StaysClosed(db: Database, past: seq<State>, s: State, sid: nat)
    requires db.Valid() && Last(past, s) && Later(past, db.past)
    ensures ClosedSession(s, sid) ==> ClosedSession(db.View(), sid)
  {
    PastGrows(db, past, s);
    assert sid < |s.sessions| ==> SessionGrows(s.sessions[sid], db.View().sessions[sid]);
  }

  // RefreshTokenService

  datatype Consumed =
    | Succeeded(presented: nat, row: TokenRow, next: nat)
    | Reused(session: nat)
    | Unknown
    | Failed

  /** Where a consume leaves its request. */
  ghost predicate Concluded(db: Database, r: nat, via: Endpoint, result: Consumed)
    reads db
  {
    match result
    case Succeeded(presented, row, next) => db.At(r, AfterRotation(via, presented, row, next))
    case Reused(session) => r !in db.book.procs && ClosedSession(db.View(), session)
    case _ => r !in db.book.procs
  }

  lemma ReusedSessionExists(db: Database, r: nat, known: nat, row: TokenRow)
    requires db.At(r, RevokeReusedSession(known, row))
    ensures row.session < |db.sessions|
  {
    ReachedInv(db);
    var s := db.View();
    assert ProcOk(s, s.procs[r]);
    assert TokenGrows(row, s.tokens[known]);
    assert RowOk(s, s.tokens[known]);
  }

  predicate AllRevoked(t: seq<TokenRow>, hash: Text) {
    forall i :: 0 <= i < |t| && t[i].hash == hash ==> t[i].status == Revoked
  }

  /** Whether the consuming UPDATE matches: the token with the hash, if there is one, is active and not expired. */
  ghost predicate MatchesJust(t: seq<TokenRow>, hash: Text, now: int, matches: bool) {
    && (forall i :: 0 <= i < |t| && t[i].hash == hash ==> (matches <==> t[i].status == Active && now < t[i].expiresAt))
    && (matches ==> exists i :: 0 <= i < |t| && t[i].hash == hash)
  }

  class RefreshTokenService {
    const db: Database

    constructor (db: Database)
      ensures this.db == db
    {
      this.db := db;
    }

    /** It gets past the first statement just when the presented hash is active and unexpired at that moment. */
    method Consume(r: nat, via: Endpoint, hash: Text, secret: Text, others: nat -> seq<Event>)
      returns (result: Consumed, ghost when: nat)
      requires db.At(r, UpdateRotated(via, hash)) && Apart(others, r)
      modifies db
      ensures db.Valid() && Later(old(db.past), db.past) && Concluded(db, r, via, result)
      ensures result.Succeeded? || result.Failed? <==> Consumable(old(db.tokens), hash, old(db.book.now)).Some?
      ensures MatchesJust(old(db.tokens), hash, old(db.book.now), result.Succeeded? || result.Failed?)
      ensures result.Failed? ==> |old(db.past)| - 1 <= when < |db.past| && !FreshSecret(db.past[when], secret)
      ensures result.Succeeded? ==>
        && Some(result.presented) == Consumable(old(db.tokens), hash, old(db.book.now))
        && result.row == old(db.tokens)[result.presented].(status := Rotated)
        && result.row.hash == hash
    {
      ghost var past0 := db.past;
      var hit := db.RotateActive(r, via, hash);
      assert MatchesJust(old(db.tokens), hash, old(db.book.now), hit.Some?);
      ghost var past1 := db.past;
      if hit.None? {
        Wait(db, r, others(10));
        ghost var past2 := db.past;
        LaterStill(past0, past1, past2);
        result := HandleReuseOrInvalid(r, hash, others);
        LaterStill(past0, past2, db.past);
        when := 0;
      } else {
        result, when := IssueNext(r, via, hit.value, db.tokens[hit.value], secret, others);
        LaterStill(past0, past1, db.past);
      }
    }

    /** The successor is inserted some time after the UPDATE. */
    method IssueNext(r: nat, via: Endpoint, presented: nat, row: TokenRow, secret: Text, others: nat -> seq<Event>)
      returns (result: Consumed, ghost when: nat)
      requires db.At(r, InsertSuccessor(via, presented, row)) && Apart(others, r)
      modifies db
      ensures db.Valid() && Later(old(db.past), db.past) && Concluded(db, r, via, result)
      ensures result == Failed || (result.Succeeded? && result.presented == presented && result.row == row)
      ensures result.Failed? ==> |old(db.past)| - 1 <= when < |db.past| && !FreshSecret(db.past[when], secret)
    {
      ghost var past0 := db.past;
      Wait(db, r, others(11));
      ghost var past1 := db.past;
      when := |past1| - 1;
      result := Issue(r, via, presented, row, secret);
      LaterStill(past0, past1, db.past);
    }

    /** Logout's revocation, and the one an OAuth refresh by another client ends in. */
    method RevokeByToken(r: nat, hash: Text)
      requires db.At(r, Proc.RevokeByToken(hash))
      modifies db
      ensures db.Valid() && Later(old(db.past), db.past) && r !in db.book.procs
      ensures AllRevoked(db.tokens, hash)
    {
      db.RevokeHash(r, hash);
    }

    /** A secret whose hash is taken violates the UNIQUE constraint, and the request fails. */
    method Issue(r: nat, via: Endpoint, presented: nat, row: TokenRow, secret: Text) returns (result: Consumed)
      requires db.At(r, InsertSuccessor(via, presented, row))
      modifies db
      ensures db.Valid() && Later(old(db.past), db.past) && Concluded(db, r, via, result)
      ensures result == Failed || (result.Succeeded? && result.presented == presented && result.row == row)
      ensures result.Succeeded? <==> FreshSecret(old(db.View()), secret)
      ensures result.Failed? ==> !FreshSecret(db.past[|old(db.past)| - 1], secret)
    {
      if FreshSecret(db.View(), secret) {
        var next := db.InsertNext(r, via, presented, row, secret);
        result := Succeeded(presented, row, next);
      } else {
        db.Fails(r);
        result := Failed;
      }
    }

    method HandleReuseOrInvalid(r: nat, hash: Text, others: nat -> seq<Event>) returns (result: Consumed)
      requires db.At(r, SelectKnown(hash)) && Apart(others, r)
      modifies db
      ensures db.Valid() && Later(old(db.past), db.past) && r !in db.book.procs
      ensures result ==
        (match TokenByHash(old(db.tokens), hash) case None => Unknown case Some(i) => Reused(old(db.tokens)[i].session))
      ensures result.Reused? ==> ClosedSession(db.View(), result.session)
    {
      ghost var past0 := db.past;
      var known := db.SelectByHash(r, hash);
      if known.None? { return Unknown; }
      var row := db.tokens[known.value];
      ghost var past1 := db.past;
      Wait(db, r, others(12));
      ghost var past2 := db.past;
      LaterStill(past0, past1, past2);
      RevokeChainAndSession(r, known.value, row, others);
      LaterStill(past0, past2, db.past);
      result := Reused(row.session);
    }

    method RevokeChainAndSession(r: nat, known: nat, row: TokenRow, others: nat -> seq<Event>)
      requires db.At(r, RevokeReusedFamily(known, row)) && Apart(others, r)
      modifies db
      ensures db.Valid() && Later(old(db.past), db.past) && r !in db.book.procs
      ensures ClosedSession(db.View(), row.session)
    {
      ghost var past0 := db.past;
      db.RevokeReused(r, known, row);
      ghost var past1 := db.past;
      Wait(db, r, others(13));
      ghost var past2 := db.past;
      LaterStill(past0, past1, past2);
      ReusedSessionExists(db, r, known, row);
      db.CloseReused(r, known, row);
      LaterStill(past0, past2, db.past);
    }
  }
}
