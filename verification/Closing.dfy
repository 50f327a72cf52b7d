/** What closing a session achieves over whole runs, exactly: by reuse detection and by a password reset. */
module Closing {
  import opened Basics
  import opened Scopes
  import opened Tables
  import opened Machine
  import opened Invariant
  import opened Preservation
  import opened Steps
  import opened Families
  import opened Sessions

  /**
   A password reset, from the statement that closes the user's sessions on: a refresh token issued to
   the user before it never again yields an access token, except to a request that had already read
   its session as open when that statement ran.
   */
  lemma ResetEndsOldTokens(s: State, r: nat, c: Choice, user: nat, es: seq<Event>, k: nat)
    requires Inv(s) && r in s.procs && s.procs[r] == EndUserSessions(user)
    requires var s' := Run(Apply(s, Step(r, c)), es); |s.grants| <= k < |s'.grants| && s'.grants[k].Refreshed?
    requires var g := Run(Apply(s, Step(r, c)), es).grants[k];
      g.presented < |s.tokens| && s.tokens[g.presented].user == user
    ensures var g := Run(Apply(s, Step(r, c)), es).grants[k];
      g.request in s.procs && PastRead(s.procs[g.request], g.session)
  {
    var s1 := Apply(s, Step(r, c));
    EventGood(s, Step(r, c));
    EventThenRun(s, Step(r, c), es, Run(s1, es));
    PayerWasPastRead(s, r, c, user, s1, es, Run(s1, es), k);
  }

  lemma PayerWasPastRead(s: State, r: nat, c: Choice, user: nat, s1: State, es: seq<Event>, s': State, k: nat)
    requires r in s.procs && s.procs[r] == EndUserSessions(user) && s1 == Apply(s, Step(r, c)) && s' == Run(s1, es)
    requires Inv(s) && Inv(s1) && Kept(s, s') && |s.grants| <= k < |s'.grants| && s'.grants[k].Refreshed?
    requires s'.grants[k].presented < |s.tokens| && s.tokens[s'.grants[k].presented].user == user
    ensures var g := s'.grants[k]; g.request in s.procs && PastRead(s.procs[g.request], g.session)
  {
    PaidForItsSession(s, s', k);
    EndsSessions(s, r, c, user, s'.grants[k].session);
    PastReadBefore(s, r, user, s1, es, s', k);
  }

  lemma PastReadBefore(s: State, r: nat, user: nat, s1: State, es: seq<Event>, s': State, k: nat)
    requires Inv(s1) && s' == Run(s1, es) && |s1.grants| <= k < |s'.grants| && s'.grants[k].Refreshed?
    requires ClosedSession(s1, s'.grants[k].session) && s1.procs == s.procs[r := EndUserTokens(user)]
    ensures var g := s'.grants[k]; g.request in s.procs && PastRead(s.procs[g.request], g.session)
  {
    var g := s'.grants[k];
    RevocationWins(s1, es, g.session, k, g.request);
  }

  /** A grant for a token that was there before is for the session of that token. */
  lemma PaidForItsSession(s: State, s': State, k: nat)
    requires Inv(s) && Kept(s, s') && k < |s'.grants| && s'.grants[k].Refreshed?
    requires s'.grants[k].presented < |s.tokens|
    ensures var g := s'.grants[k];
      && g.session == s.tokens[g.presented].session && g.session < |s.sessions|
      && s.sessions[g.session].user == s.tokens[g.presented].user
  {
    var g := s'.grants[k];
    assert GrantOk(s', g);
    assert TokenGrows(s.tokens[g.presented], s'.tokens[g.presented]);
    assert RowOk(s, s.tokens[g.presented]);
  }

  lemma EndsSessions(s: State, r: nat, c: Choice, user: nat, sid: nat)
    requires r in s.procs && s.procs[r] == EndUserSessions(user) && sid < |s.sessions|
    ensures var s1 := Apply(s, Step(r, c));
      && |s1.sessions| == |s.sessions| && s1.sessions[sid].user == s.sessions[sid].user
      && (s.sessions[sid].user == user ==> ClosedSession(s1, sid))
      && s1.grants == s.grants && s1.procs == s.procs[r := EndUserTokens(user)]
  {
    TakesEnding(s, r, s.procs[r], c);
  }

  // Exactly which requests are still paid

  /** The scope the request asked for, if it asked for one, is within the token's. */
  predicate ScopeAllowed(via: Endpoint, stored: string) {
    via.OAuthRefresh? ==> NarrowingAllowed(stored, via.requested)
  }

  /** A refresh that has read session sid as open and will answer with an access token for token t. */
  predicate PaysFor(p: Proc, sid: nat, t: nat) {
    match p
    case SetCached(id, row, ForRefresh(via, presented, seen, _)) =>
      id == sid && row.status == Open && presented == t && ScopeAllowed(via, seen.scope)
    case Resume(id, found, ForRefresh(via, presented, seen, _)) =>
      id == sid && found.Some? && found.value.status == Open && presented == t && ScopeAllowed(via, seen.scope)
    case _ => false
  }

  ghost predicate PayerAt(s: State, q: nat, sid: nat, t: nat) {
    q in s.procs && PaysFor(s.procs[q], sid, t)
  }

  /** A step of a request past its read neither changes what it refreshes nor what it may ask for. */
  lemma PastReadStep(s: State, r: nat, c: Choice, sid: nat, t: nat)
    requires r in s.procs && PastRead(s.procs[r], sid) && ProcOk(s, s.procs[r])
    ensures var s' := StepProc(s, r, s.procs[r], c);
      && (PayerAt(s', r, sid, t) ==> PayerAt(s, r, sid, t))
      && (forall k ::
           |s.grants| <= k < |s'.grants| && s'.grants[k].Refreshed? && s'.grants[k].presented == t ==>
           PayerAt(s, r, sid, t))
  {
    PastReadMove(s, r, c, sid, t);
    StepsAlike(s, r, s.procs[r], c);
  }

  lemma PastReadMove(s: State, r: nat, c: Choice, sid: nat, t: nat)
    requires r in s.procs && PastRead(s.procs[r], sid) && ProcOk(s, s.procs[r])
    ensures var s' := StepProc(s, r, s.procs[r], c); PayerAt(s', r, sid, t) ==> PayerAt(s, r, sid, t)
  {
    StepsAlike(s, r, s.procs[r], c);
  }

  lemma StepsAlike(s: State, r: nat, p: Proc, c: Choice)
    ensures Rotating(p) ==> StepProc(s, r, p, c) == StepRotating(s, r, p, c)
    ensures Finding(p) ==> StepProc(s, r, p, c) == StepFinding(s, r, p, c)
    ensures Issuing(p) ==> StepProc(s, r, p, c) == StepIssuing(s, r, p, c)
  {
    if Rotating(p) {
      StepsRotating(s, r, p, c);
    }
    if Finding(p) {
      StepsFinding(s, r, p, c);
    }
    if Issuing(p) {
      StepsIssuing(s, r, p, c);
    }
  }

  predicate PaidFor(g: Grant, q: nat, sid: nat, t: nat) {
    g.Refreshed? && g.request == q && g.session == sid && g.presented == t
  }

  /** Some grant of s' that s lacks pays q for token t. */
  ghost predicate PaidNow(s: State, s': State, q: nat, sid: nat, t: nat) {
    exists k :: |s.grants| <= k < |s'.grants| && PaidFor(s'.grants[k], q, sid, t)
  }

  lemma ActorPays(s: State, e: Event, sid: nat, t: nat, q: nat)
    requires Inv(s) && q == Actor(s, e) && q in s.procs && PastRead(s.procs[q], sid)
    ensures PayerAt(Apply(s, e), q, sid, t) || PaidNow(s, Apply(s, e), q, sid, t) ==> PayerAt(s, q, sid, t)
  {
    if e.Step? {
      assert ProcOk(s, s.procs[q]);
      PastReadStep(s, q, e.c, sid, t);
      assert Apply(s, e) == StepProc(s, q, s.procs[q], e.c);
    }
  }

  lemma OnlyPastReadersPay(s: State, s': State, a: nat, sid: nat, t: nat, q: nat)
    requires ClosedSession(s, sid) && Honest(s, s', a, sid)
    requires PayerAt(s', q, sid, t) || PaidNow(s, s', q, sid, t)
    ensures PayerAt(s, q, sid, t) || (q == a && q in s.procs && PastRead(s.procs[q], sid))
  {
    if q != a {
      OthersStay(s, s', a, q);
    }
    if PaidNow(s, s', q, sid, t) {
      var k :| |s.grants| <= k < |s'.grants| && PaidFor(s'.grants[k], q, sid, t);
      assert GrantFor(s'.grants[k], q, sid);
    }
  }

  /** Of a closed session, only a request that was already a payer is one after the event, and only it is paid. */
  lemma EventPays(s: State, e: Event, sid: nat, t: nat, q: nat)
    requires Inv(s) && ClosedSession(s, sid)
    ensures PayerAt(Apply(s, e), q, sid, t) || PaidNow(s, Apply(s, e), q, sid, t) ==> PayerAt(s, q, sid, t)
  {
    if PayerAt(Apply(s, e), q, sid, t) || PaidNow(s, Apply(s, e), q, sid, t) {
      EventHonest(s, e, sid);
      OnlyPastReadersPay(s, Apply(s, e), Actor(s, e), sid, t, q);
      if !PayerAt(s, q, sid, t) {
        ActorPays(s, e, sid, t, q);
      }
    }
  }

  lemma {:induction false} PayersRemain(s: State, es: seq<Event>, sid: nat, t: nat, q: nat)
    requires Inv(s) && ClosedSession(s, sid) && PayerAt(Run(s, es), q, sid, t)
    ensures PayerAt(s, q, sid, t)
    decreases |es|
  {
    if |es| == 0 {
      RunNone(s);
    } else {
      var es' := es[..|es| - 1];
      RunKept(s, es');
      RunLast(s, es);
      EventPays(Run(s, es'), es[|es| - 1], sid, t, q);
      PayersRemain(s, es', sid, t, q);
    }
  }

  /** Whoever is paid for a token of a closed session was a payer of it when the session was closed. */
  lemma {:induction false} PaidWasPayer(s: State, es: seq<Event>, sid: nat, t: nat, q: nat, k: nat)
    requires Inv(s) && ClosedSession(s, sid) && |s.grants| <= k < |Run(s, es).grants|
    requires PaidFor(Run(s, es).grants[k], q, sid, t)
    ensures PayerAt(s, q, sid, t)
    decreases |es|
  {
    if |es| == 0 {
      RunNone(s);
    } else {
      var es' := es[..|es| - 1];
      var m := Run(s, es');
      RunKept(s, es');
      RunLast(s, es);
      EventGood(m, es[|es| - 1]);
      if k < |m.grants| {
        PaidWasPayer(s, es', sid, t, q, k);
      } else {
        assert PaidNow(m, Run(s, es), q, sid, t);
        EventPays(m, es[|es| - 1], sid, t, q);
        PayersRemain(s, es', sid, t, q);
      }
    }
  }

  lemma PayerAnswers(s: State, q: nat, c: Choice, sid: nat, t: nat)
    requires PayerAt(s, q, sid, t) && s.procs[q].Resume?
    ensures PaidNow(s, Apply(s, Step(q, c)), q, s.procs[q].why.row.session, t)
  {
    TakesRotating(s, q, s.procs[q], c);
    var s' := Apply(s, Step(q, c));
    assert PaidFor(s'.grants[|s.grants|], q, s.procs[q].why.row.session, t);
  }

  lemma PayerFillsCache(s: State, q: nat, c: Choice, sid: nat, t: nat)
    requires PayerAt(s, q, sid, t) && s.procs[q].SetCached?
    ensures var s' := Apply(s, Step(q, c));
      PayerAt(s', q, sid, t) && s'.procs[q].Resume? && s'.grants == s.grants && s'.procs[q].why == s.procs[q].why
  {
    TakesFinding(s, q, s.procs[q], c);
  }

  /** A payer is paid by its own next statements. */
  lemma PayerIsPaid(s: State, q: nat, c: Choice, sid: nat, t: nat) returns (es: seq<Event>)
    requires Inv(s) && PayerAt(s, q, sid, t)
    ensures PaidNow(s, Run(s, es), q, sid, t)
  {
    assert ProcOk(s, s.procs[q]);
    assert PurposeOk(s, sid, s.procs[q].why) && s.procs[q].why.row.session == sid;
    RunNone(s);
    RunThen(s, [], s, Step(q, c), Apply(s, Step(q, c)));
    es := [] + [Step(q, c)];
    if s.procs[q].Resume? {
      PayerAnswers(s, q, c, sid, t);
    } else {
      var m := Apply(s, Step(q, c));
      PayerFillsCache(s, q, c, sid, t);
      PayerAnswers(m, q, c, sid, t);
      RunThen(s, es, m, Step(q, c), Apply(m, Step(q, c)));
      es := es + [Step(q, c)];
    }
  }

  /** Some run hands out an access token for token t of the session. */
  ghost predicate WillBePaid(s: State, sid: nat, t: nat) {
    exists es, q :: PaidNow(s, Run(s, es), q, sid, t)
  }

  ghost predicate HasPayer(s: State, sid: nat, t: nat) {
    exists q :: PayerAt(s, q, sid, t)
  }

  lemma PaidNowWasPayer(s: State, es: seq<Event>, sid: nat, t: nat, q: nat)
    requires Inv(s) && ClosedSession(s, sid) && PaidNow(s, Run(s, es), q, sid, t)
    ensures PayerAt(s, q, sid, t)
  {
    var k :| |s.grants| <= k < |Run(s, es).grants| && PaidFor(Run(s, es).grants[k], q, sid, t);
    PaidWasPayer(s, es, sid, t, q, k);
  }

  /**
   Once a session is closed, a refresh token of it is ever paid for again if and only if a refresh of
   that token is in flight that has read the session as open and asks for no scope the token lacks.
   */
  lemma ClosedExactly(s: State, sid: nat, t: nat)
    requires Inv(s) && ClosedSession(s, sid)
    ensures WillBePaid(s, sid, t) <==> HasPayer(s, sid, t)
  {
    if WillBePaid(s, sid, t) {
      var es, q :| PaidNow(s, Run(s, es), q, sid, t);
      PaidNowWasPayer(s, es, sid, t, q);
    }
    if HasPayer(s, sid, t) {
      var q :| PayerAt(s, q, sid, t);
      var es := PayerIsPaid(s, q, Choice(Raw(0), 0, false, {}), sid, t);
    }
  }

  /**
   Reuse detection, with rotations of the family in flight or not: its second statement leaves only
   those refreshes to be paid.
   */
  lemma ReuseLeavesOnlyPayers(s: State, r: nat, c: Choice, known: nat, row: TokenRow, t: nat)
    requires Inv(s) && r in s.procs && s.procs[r] == RevokeReusedSession(known, row)
    ensures WillBePaid(Apply(s, Step(r, c)), row.session, t) <==> HasPayer(s, row.session, t)
  {
    var s1, sid := Apply(s, Step(r, c)), row.session;
    ReuseCloses(s, r, c, known, row);
    EventGood(s, Step(r, c));
    ClosedExactly(s1, sid, t);
    PayersStay(s, s1, r, sid, t);
  }

  lemma PayersStay(s: State, s1: State, r: nat, sid: nat, t: nat)
    requires s1.procs == s.procs - {r} && !PayerAt(s, r, sid, t)
    ensures HasPayer(s1, sid, t) <==> HasPayer(s, sid, t)
  {
    if HasPayer(s, sid, t) {
      var q :| PayerAt(s, q, sid, t);
      OthersStay(s, s1, r, q);
      assert PayerAt(s1, q, sid, t);
    }
    if HasPayer(s1, sid, t) {
      var q :| PayerAt(s1, q, sid, t);
      OthersStay(s, s1, r, q);
      assert PayerAt(s, q, sid, t);
    }
  }

  lemma ReuseCloses(s: State, r: nat, c: Choice, known: nat, row: TokenRow)
    requires Inv(s) && r in s.procs && s.procs[r] == RevokeReusedSession(known, row)
    ensures var s1 := Apply(s, Step(r, c)); ClosedSession(s1, row.session) && s1.procs == s.procs - {r}
  {
    assert ProcOk(s, s.procs[r]) && RowOk(s, s.tokens[known]);
    TakesRevoking(s, r, s.procs[r], c);
  }

  // Password reset

  /** A request that will answer for a token of the user that is in the table already. */
  ghost predicate OldPayer(s: State, q: nat, user: nat, t: nat) {
    t < |s.tokens| && s.tokens[t].user == user && PayerAt(s, q, s.tokens[t].session, t)
  }

  /** Between s and s' an access token was handed out for a token of the user that is in the table in s. */
  ghost predicate OldTokenPaid(s: State, s': State, user: nat, q: nat, t: nat) {
    t < |s.tokens| && s.tokens[t].user == user && PaidNow(s, s', q, s.tokens[t].session, t)
  }

  lemma SessionsEnd(s: State, r: nat, c: Choice, user: nat, t: nat)
    requires Inv(s) && r in s.procs && s.procs[r] == EndUserSessions(user) && t < |s.tokens| && s.tokens[t].user == user
    ensures var s1 := Apply(s, Step(r, c));
      && s1.grants == s.grants && ClosedSession(s1, s.tokens[t].session)
      && s1.procs - {r} == s.procs - {r} && r in s1.procs && s1.procs[r] == EndUserTokens(user)
  {
    assert RowOk(s, s.tokens[t]);
    EndsSessions(s, r, c, user, s.tokens[t].session);
  }

  lemma PaidOldWasPayer(s: State, r: nat, c: Choice, user: nat, es: seq<Event>, q: nat, t: nat)
    requires Inv(s) && r in s.procs && s.procs[r] == EndUserSessions(user)
    requires OldTokenPaid(s, Run(Apply(s, Step(r, c)), es), user, q, t)
    ensures OldPayer(s, q, user, t)
  {
    var s1, sid := Apply(s, Step(r, c)), s.tokens[t].session;
    SessionsEnd(s, r, c, user, t);
    EventGood(s, Step(r, c));
    var k :| |s.grants| <= k < |Run(s1, es).grants| && PaidFor(Run(s1, es).grants[k], q, sid, t);
    PaidWasPayer(s1, es, sid, t, q, k);
    OthersStay(s, s1, r, q);
  }

  lemma OldPayerIsPaid(s: State, r: nat, c: Choice, user: nat, q: nat, t: nat) returns (es: seq<Event>)
    requires Inv(s) && r in s.procs && s.procs[r] == EndUserSessions(user) && OldPayer(s, q, user, t)
    ensures OldTokenPaid(s, Run(Apply(s, Step(r, c)), es), user, q, t)
  {
    var s1, sid := Apply(s, Step(r, c)), s.tokens[t].session;
    SessionsEnd(s, r, c, user, t);
    EventGood(s, Step(r, c));
    OthersStay(s, s1, r, q);
    es := PayerIsPaid(s1, q, c, sid, t);
  }

  /** Some run from s1 hands out an access token for a token of the user that was in the table in s. */
  ghost predicate EverPaid(s: State, s1: State, user: nat) {
    exists es, q, t :: OldTokenPaid(s, Run(s1, es), user, q, t)
  }

  ghost predicate PayerWaiting(s: State, user: nat) {
    exists q, t :: OldPayer(s, q, user, t)
  }

  /**
   When a reset closes the user's sessions, some later run hands out an access token for one of the
   user's old refresh tokens if and only if some refresh in flight at that moment had read its
   session as open and asks for no scope its token lacks.
   */
  lemma ResetExactly(s: State, r: nat, c: Choice, user: nat)
    requires Inv(s) && r in s.procs && s.procs[r] == EndUserSessions(user)
    ensures EverPaid(s, Apply(s, Step(r, c)), user) <==> PayerWaiting(s, user)
  {
    var s1 := Apply(s, Step(r, c));
    if EverPaid(s, s1, user) {
      var es, q, t :| OldTokenPaid(s, Run(s1, es), user, q, t);
      PaidOldWasPayer(s, r, c, user, es, q, t);
    }
    if PayerWaiting(s, user) {
      var q, t :| OldPayer(s, q, user, t);
      var es := OldPayerIsPaid(s, r, c, user, q, t);
    }
  }

  // Such a refresh does occur

  function Draw(n: nat): Choice { Choice(Raw(n), 0, true, {}) }

  function Session0(user: nat): SessionRow { SessionRow(user, None, Password(0), false, Open) }

  function Token0(user: nat, status: TokenStatus): TokenRow {
    TokenRow(0, user, None, Sha256(Raw(1)), 0, None, DefaultScope(true), status, REFRESH_TOKEN_TTL)
  }

  /** The user has asked for a password reset and has signed in. */
  /** A password reset is under way, and a sign-in arrives that has checked the password. */
  lemma SignInArrives(user: nat) returns (s: State)
    ensures Reachable(s)
    ensures s == Goto(Init.(resets := [ResetRow(user, Sha256(Raw(0)), PASSWORD_RESET_TTL, false)]), 0,
                      InsertSession(user, None, Password(0), ""))
  {
    RunNone(Init);
    ReachableIsRun(Init);
    assert Run(Init, []) == Init;
    var s1 := Init.(resets := [ResetRow(user, Sha256(Raw(0)), PASSWORD_RESET_TTL, false)]);
    ReachNext(Init, IssueReset(user, Raw(0)));
    assert Apply(Init, IssueReset(user, Raw(0))) == s1;
    s := Goto(s1, 0, InsertSession(user, None, Password(0), ""));
    ReachNext(s1, Arrive(0, InsertSession(user, None, Password(0), "")));
  }

  lemma SignedInUser(user: nat) returns (s: State)
    ensures Reachable(s) && s.now == 0 && s.procs == map[] && s.cache == map[] && s.codes == []
    ensures s.resets == [ResetRow(user, Sha256(Raw(0)), PASSWORD_RESET_TTL, false)]
    ensures s.sessions == [Session0(user)] && s.tokens == [Token0(user, Active)]
  {
    var s2 := SignInArrives(user);
    var s3 := DoInsertSession(s2, 0, user, None, Password(0), "", true);
    TakesIssuing(s2, 0, InsertSession(user, None, Password(0), ""), Draw(1));
    ReachNext(s2, Step(0, Draw(1)));
    var p := InsertRoot(0, user, None, Password(0), DefaultScope(true));
    s := DoInsertRoot(s3, 0, 0, user, None, DefaultScope(true), Draw(1));
    TakesIssuing(s3, 0, p, Draw(1));
    ReachNext(s3, Step(0, Draw(1)));
  }

  /** A refresh has rotated the token and is about to read the session. */
  lemma RotatedOnce(user: nat) returns (s: State, why: Purpose)
    ensures Reachable(s) && s.now == 0 && s.procs == map[1 := GetCached(0, why)] && s.cache == map[] && |s.tokens| == 2
    ensures s.resets == [ResetRow(user, Sha256(Raw(0)), PASSWORD_RESET_TTL, false)]
    ensures s.sessions == [Session0(user)] && s.tokens[0] == Token0(user, Rotated)
    ensures why == ForRefresh(AuthRefresh, 0, Token0(user, Rotated), 1)
  {
    var s0 := SignedInUser(user);
    var hash := Sha256(Raw(1));
    why := ForRefresh(AuthRefresh, 0, Token0(user, Rotated), 1);
    var s1 := Goto(s0, 1, UpdateRotated(AuthRefresh, hash));
    ReachNext(s0, Arrive(1, UpdateRotated(AuthRefresh, hash)));
    assert TokenByHash(s1.tokens, hash) == Some(0);
    TakesRotating(s1, 1, UpdateRotated(AuthRefresh, hash), Draw(2));
    ReachNext(s1, Step(1, Draw(2)));
    var s2 := DoUpdateRotated(s1, 1, AuthRefresh, hash);
    var p := InsertSuccessor(AuthRefresh, 0, Token0(user, Rotated));
    assert s2.procs[1] == p && s2.tokens == [Token0(user, Rotated)];
    TakesRotating(s2, 1, p, Draw(2));
    ReachNext(s2, Step(1, Draw(2)));
    assert FreshSecret(s2, Raw(2));
    s := DoInsertSuccessor(s2, 1, AuthRefresh, 0, Token0(user, Rotated), Raw(2));
  }

  /** It has read the session as open. */
  lemma ReadOpen(user: nat) returns (s: State)
    ensures Reachable(s) && s.now == 0 && 1 in s.procs && 2 !in s.procs && PaysFor(s.procs[1], 0, 0)
    ensures s.resets == [ResetRow(user, Sha256(Raw(0)), PASSWORD_RESET_TTL, false)]
    ensures |s.tokens| == 2 && s.tokens[0] == Token0(user, Rotated)
  {
    var s0, why := RotatedOnce(user);
    TakesFinding(s0, 1, GetCached(0, why), Draw(0));
    ReachNext(s0, Step(1, Draw(0)));
    var s1 := DoGetCached(s0, 1, 0, why);
    TakesFinding(s1, 1, SelectSession(0, false, why), Draw(0));
    ReachNext(s1, Step(1, Draw(0)));
    s := DoSelectSession(s1, 1, 0, false, why);
    assert s.procs[1] == SetCached(0, Session0(user), why);
  }

  lemma ResetRedeemed(s0: State, user: nat) returns (s: State)
    requires Reachable(s0) && s0.now == 0 && 2 !in s0.procs
    requires s0.resets == [ResetRow(user, Sha256(Raw(0)), PASSWORD_RESET_TTL, false)]
    ensures Reachable(s) && s.tokens == s0.tokens && s.procs == s0.procs[2 := SetPassword(0, user)]
    ensures s.changes == s0.changes && s.resets == [ResetRow(user, Sha256(Raw(0)), PASSWORD_RESET_TTL, true)]
  {
    var hash := Sha256(Raw(0));
    var s1 := Goto(s0, 2, UseReset(hash, true));
    ReachNext(s0, Arrive(2, UseReset(hash, true)));
    assert ResetByHash(s1.resets, hash) == Some(0);
    TakesIssuing(s1, 2, UseReset(hash, true), Draw(0));
    ReachNext(s1, Step(2, Draw(0)));
    s := DoUseReset(s1, 2, hash, true);
  }

  /** A reset of the user's password comes to the statement that closes the sessions. */
  lemma ResetArrives(s0: State, user: nat) returns (s: State)
    requires Reachable(s0) && s0.now == 0 && 2 !in s0.procs
    requires s0.resets == [ResetRow(user, Sha256(Raw(0)), PASSWORD_RESET_TTL, false)]
    ensures Reachable(s) && s.tokens == s0.tokens && s.procs == s0.procs[2 := EndUserSessions(user)]
    ensures s.changes == s0.changes + [0] && s.resets == [ResetRow(user, Sha256(Raw(0)), PASSWORD_RESET_TTL, true)]
  {
    var s1 := ResetRedeemed(s0, user);
    TakesIssuing(s1, 2, SetPassword(0, user), Draw(0));
    ReachNext(s1, Step(2, Draw(0)));
    s := DoSetPassword(s1, 2, 0, user);
  }

  lemma PayerAtResetIsReachable(user: nat) returns (s: State)
    ensures Reachable(s) && 2 in s.procs && s.procs[2] == EndUserSessions(user) && PayerWaiting(s, user)
  {
    var s0 := ReadOpen(user);
    s := ResetArrives(s0, user);
    assert OldPayer(s, 1, user, 0);
  }

  /** A reset token changes the password at most once. */
  lemma ResetChangesPasswordOnce(s: State, m: nat, n: nat)
    requires Reachable(s)
    requires m < |s.changes| && n < |s.changes| && s.changes[m] == s.changes[n]
    ensures m == n
  {
    ReachableSound(s);
    assert Holds(s, Changed(m), ResetUse(s.changes[m])) && Holds(s, Changed(n), ResetUse(s.changes[m]));
  }

  /** The statement that spends reset i: its hash, an accepted password, and not too late. */
  predicate Spends(s: State, e: Event, i: nat) {
    && e.Step? && e.r in s.procs && s.procs[e.r].UseReset? && i < |s.resets|
    && s.procs[e.r].policyOk && s.procs[e.r].hash == s.resets[i].hash && s.now < s.resets[i].expiresAt
  }

  lemma RotatingResets(s: State, r: nat, p: Proc, c: Choice)
    requires Rotating(p)
    ensures StepRotating(s, r, p, c).resets == s.resets
  {
  }

  lemma FindingResets(s: State, r: nat, p: Proc, c: Choice)
    requires Finding(p) || Authorizing(p)
    ensures Finding(p) ==> StepFinding(s, r, p, c).resets == s.resets
    ensures Authorizing(p) ==> StepAuthorizing(s, r, p, c).resets == s.resets
  {
  }

  lemma RevokingResets(s: State, r: nat, p: Proc, c: Choice)
    requires Revoking(p) || Ending(p)
    ensures Revoking(p) ==> StepRevoking(s, r, p, c).resets == s.resets
    ensures Ending(p) ==> StepEnding(s, r, p, c).resets == s.resets
  {
  }

  lemma ChallengingResets(s: State, r: nat, p: Proc, c: Choice)
    requires Challenging(p)
    ensures StepChallenging(s, r, p, c).resets == s.resets
  {
  }

  lemma IssuingResets(s: State, r: nat, p: Proc, c: Choice)
    requires Issuing(p) && !p.UseReset?
    ensures StepIssuing(s, r, p, c).resets == s.resets
  {
  }

  lemma StepResets(s: State, r: nat, p: Proc, c: Choice)
    requires !p.UseReset?
    ensures StepProc(s, r, p, c).resets == s.resets
  {
    if Rotating(p) {
      RotatingResets(s, r, p, c);
    } else if Revoking(p) || Ending(p) {
      RevokingResets(s, r, p, c);
    } else if Finding(p) || Authorizing(p) {
      FindingResets(s, r, p, c);
    } else if Challenging(p) {
      ChallengingResets(s, r, p, c);
    } else {
      IssuingResets(s, r, p, c);
    }
  }

  lemma UseResetSpends(s: State, r: nat, hash: Text, policyOk: bool, c: Choice, i: nat)
    requires UniqueHashes(s) && i < |s.resets| && r in s.procs && s.procs[r] == UseReset(hash, policyOk)
    ensures var s' := DoUseReset(s, r, hash, policyOk);
      |s'.resets| == |s.resets| && (s'.resets[i].used <==> s.resets[i].used || Spends(s, Step(r, c), i))
  {
    if hash == s.resets[i].hash {
      assert ResetByHash(s.resets, hash) == Some(i);
    }
  }

  lemma EventSpends(s: State, e: Event, i: nat)
    requires Inv(s) && i < |s.resets|
    ensures i < |Apply(s, e).resets| && (Apply(s, e).resets[i].used <==> s.resets[i].used || Spends(s, e, i))
  {
    if e.Step? && e.r in s.procs {
      var p := s.procs[e.r];
      if p.UseReset? {
        TakesIssuing(s, e.r, p, e.c);
        UseResetSpends(s, e.r, p.hash, p.policyOk, e.c, i);
      } else {
        StepResets(s, e.r, p, e.c);
        assert Apply(s, e) == StepProc(s, e.r, p, e.c);
      }
    }
  }

  predicate SpentAt(s: State, es: seq<Event>, i: nat, n: nat) {
    n < |es| && Spends(Run(s, es[..n]), es[n], i)
  }

  ghost predicate SpentDuring(s: State, es: seq<Event>, i: nat) {
    exists n :: SpentAt(s, es, i, n)
  }

  lemma SpentBefore(s: State, es: seq<Event>, i: nat, n: nat)
    requires n < |es| - 1
    ensures SpentAt(s, es, i, n) <==> SpentAt(s, es[..|es| - 1], i, n)
  {
    assert es[..|es| - 1][..n] == es[..n];
  }

  lemma SpentDuringMore(s: State, es: seq<Event>, i: nat)
    requires |es| > 0
    ensures SpentDuring(s, es, i) <==>
      SpentDuring(s, es[..|es| - 1], i) || Spends(Run(s, es[..|es| - 1]), es[|es| - 1], i)
  {
    if SpentDuring(s, es, i) {
      var n: nat :| SpentAt(s, es, i, n);
      if n < |es| - 1 {
        SpentBefore(s, es, i, n);
      }
    }
    if SpentDuring(s, es[..|es| - 1], i) {
      var n: nat :| SpentAt(s, es[..|es| - 1], i, n);
      SpentBefore(s, es, i, n);
    }
    if Spends(Run(s, es[..|es| - 1]), es[|es| - 1], i) {
      assert SpentAt(s, es, i, |es| - 1);
    }
  }

  /**
   Over any run, an unused reset token is spent if and only if a request presented it in time with a
   password the policy accepts: a policy failure never spends it, and neither does anything else.
   */
  lemma {:induction false} SpentByAcceptedPassword(s: State, es: seq<Event>, i: nat)
    requires Inv(s) && i < |s.resets| && !s.resets[i].used
    ensures i < |Run(s, es).resets|
    ensures Run(s, es).resets[i].used <==> SpentDuring(s, es, i)
    decreases |es|
  {
    if |es| == 0 {
      RunNone(s);
    } else {
      var es' := es[..|es| - 1];
      SpentByAcceptedPassword(s, es', i);
      RunKept(s, es');
      RunLast(s, es);
      EventSpends(Run(s, es'), es[|es| - 1], i);
      SpentDuringMore(s, es, i);
    }
  }

  // The tokens of a session or a user

  /**
   The second statement of a logout kills a family of the session exactly if no rotation of it is in
   flight, and then for ever.
   */
  lemma LogoutKillsFamilies(s: State, r: nat, c: Choice, sid: nat, refresh: Option<Text>, i: nat, es: seq<Event>)
    requires Inv(s) && r in s.procs && s.procs[r] == EndSessionTokens(sid, refresh)
    requires i < |s.tokens| && s.tokens[i].session == sid
    ensures Dead(Apply(s, Step(r, c)), s.tokens[i].family) <==> InFlight(s, s.tokens[i].family) == {}
    ensures InFlight(s, s.tokens[i].family) == {} ==> Dead(Run(Apply(s, Step(r, c)), es), s.tokens[i].family)
  {
    var family := s.tokens[i].family;
    forall j | 0 <= j < |s.tokens| && s.tokens[j].family == family && s.tokens[j].status == Active
      ensures Selects(ActiveOfSession(sid), s.tokens[j])
    {
      OneGrantPerFamily(s, i, j);
    }
    KillsForEver(s, r, c, family, es);
  }

  /** So does the statement of a password reset, or of a logout everywhere, for every family of the user. */
  lemma ResetKillsFamilies(s: State, r: nat, c: Choice, user: nat, i: nat, es: seq<Event>)
    requires Inv(s) && r in s.procs && s.procs[r] == EndUserTokens(user)
    requires i < |s.tokens| && s.tokens[i].user == user
    ensures Dead(Apply(s, Step(r, c)), s.tokens[i].family) <==> InFlight(s, s.tokens[i].family) == {}
    ensures InFlight(s, s.tokens[i].family) == {} ==> Dead(Run(Apply(s, Step(r, c)), es), s.tokens[i].family)
  {
    var family := s.tokens[i].family;
    forall j | 0 <= j < |s.tokens| && s.tokens[j].family == family && s.tokens[j].status == Active
      ensures Selects(OfUser(user), s.tokens[j])
    {
      OneGrantPerFamily(s, i, j);
    }
    KillsForEver(s, r, c, family, es);
  }

  lemma KillsForEver(s: State, r: nat, c: Choice, family: nat, es: seq<Event>)
    requires Inv(s) && r in s.procs && RevokingWhere(s.procs[r]).Some? && !FreshFamily(s, family)
    requires Covers(RevokingWhere(s.procs[r]).value, s.tokens, family)
    ensures Dead(Apply(s, Step(r, c)), family) <==> InFlight(s, family) == {}
    ensures InFlight(s, family) == {} ==> Dead(Run(Apply(s, Step(r, c)), es), family)
  {
    RevocationKills(s, r, c, family);
    EventGood(s, Step(r, c));
    if InFlight(s, family) == {} {
      DeadForever(Apply(s, Step(r, c)), es, family);
    }
  }
}
