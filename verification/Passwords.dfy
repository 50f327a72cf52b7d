/** Which sessions outlive the password they were opened with. */
module Passwords {
  import opened Basics
  import opened Tables
  import opened Machine
  import opened Invariant
  import opened Preservation
  import opened Steps
  import opened Families
  import opened Sessions
  import opened Closing

  // How often a password was replaced

  lemma {:induction false} ReplacedGrows(changes: seq<nat>, resets: seq<ResetRow>, changes': seq<nat>,
        resets': seq<ResetRow>, user: nat)
    requires changes <= changes' && |resets| <= |resets'|
    requires forall i :: 0 <= i < |resets| ==> resets'[i].user == resets[i].user
    requires forall m :: 0 <= m < |changes| ==> changes[m] < |resets|
    ensures Replaced(changes, resets, user) <= Replaced(changes', resets', user)
    decreases |changes'|
  {
    if |changes'| > 0 {
      var shorter := changes'[..|changes'| - 1];
      if |changes| < |changes'| {
        assert changes <= shorter;
        ReplacedGrows(changes, resets, shorter, resets', user);
      } else {
        assert changes == changes';
        ReplacedGrows(changes[..|changes| - 1], resets, shorter, resets', user);
      }
    }
  }

  lemma ReplacedKept(s: State, s': State, user: nat)
    requires Local(s) && Grows(s, s')
    ensures Replaced(s.changes, s.resets, user) <= Replaced(s'.changes, s'.resets, user)
  {
    assert forall m :: 0 <= m < |s.changes| ==> s.changes[m] < |s.resets|;
    assert forall i :: 0 <= i < |s.resets| ==> ResetGrows(s.resets[i], s'.resets[i]);
    ReplacedGrows(s.changes, s.resets, s'.changes, s'.resets, user);
  }

  // Sign-ins on a password that has been replaced

  predicate StaleOrigin(origin: Origin, v: nat) { !origin.FromCode? && origin.asOf < v }

  /** A sign-in of the user that read the password when it had been replaced fewer than v times. */
  predicate StaleSignIn(s: State, q: nat, user: nat, v: nat) {
    q in s.procs && s.procs[q].InsertSession? && s.procs[q].user == user && StaleOrigin(s.procs[q].origin, v)
  }

  predicate StaleSession(s: State, j: nat, user: nat, v: nat) {
    j < |s.sessions| && s.sessions[j].user == user && StaleOrigin(s.sessions[j].origin, v)
  }

  /** No session is inserted, and no request is left about to insert one, unless for a code. */
  predicate NoSignIn(s: State, s': State, r: nat) {
    |s'.sessions| == |s.sessions| && (r in s'.procs && s'.procs[r].InsertSession? ==> s'.procs[r].origin.FromCode?)
  }

  lemma RotatingSignsIn(s: State, r: nat, p: Proc, c: Choice)
    requires r in s.procs && s.procs[r] == p && Rotating(p)
    ensures NoSignIn(s, StepRotating(s, r, p, c), r)
  {
  }

  lemma RevokingSignsIn(s: State, r: nat, p: Proc, c: Choice)
    requires r in s.procs && s.procs[r] == p && Revoking(p)
    ensures NoSignIn(s, StepRevoking(s, r, p, c), r)
  {
  }

  lemma EndingSignsIn(s: State, r: nat, p: Proc, c: Choice)
    requires r in s.procs && s.procs[r] == p && Ending(p)
    ensures NoSignIn(s, StepEnding(s, r, p, c), r)
  {
  }

  lemma FindingSignsIn(s: State, r: nat, p: Proc, c: Choice)
    requires r in s.procs && s.procs[r] == p && Finding(p)
    ensures NoSignIn(s, StepFinding(s, r, p, c), r)
  {
  }

  lemma ChallengingSignsIn(s: State, r: nat, p: Proc, c: Choice)
    requires r in s.procs && s.procs[r] == p && Challenging(p)
    ensures NoSignIn(s, StepChallenging(s, r, p, c), r)
  {
  }

  lemma AuthorizingSignsIn(s: State, r: nat, p: Proc, c: Choice)
    requires r in s.procs && s.procs[r] == p && Authorizing(p)
    ensures NoSignIn(s, StepAuthorizing(s, r, p, c), r)
  {
  }

  lemma IssuingSignsIn(s: State, r: nat, p: Proc, c: Choice)
    requires r in s.procs && s.procs[r] == p && Issuing(p) && !p.InsertSession?
    ensures NoSignIn(s, StepIssuing(s, r, p, c), r)
  {
  }

  lemma StepSignsIn(s: State, r: nat, p: Proc, c: Choice)
    requires r in s.procs && s.procs[r] == p && !p.InsertSession?
    ensures NoSignIn(s, StepProc(s, r, p, c), r)
  {
    if Rotating(p) {
      RotatingSignsIn(s, r, p, c);
    } else if Revoking(p) {
      RevokingSignsIn(s, r, p, c);
    } else if Ending(p) {
      EndingSignsIn(s, r, p, c);
    } else if Finding(p) {
      FindingSignsIn(s, r, p, c);
    } else if Challenging(p) {
      ChallengingSignsIn(s, r, p, c);
    } else if Authorizing(p) {
      AuthorizingSignsIn(s, r, p, c);
    } else {
      IssuingSignsIn(s, r, p, c);
    }
  }

  /** The sign-in itself: the session it inserts says what password it read. */
  lemma SignInInserts(s: State, r: nat, c: Choice)
    requires r in s.procs && s.procs[r].InsertSession?
    ensures var s', p := Apply(s, Step(r, c)), s.procs[r];
      && |s'.sessions| == |s.sessions| + 1
      && s'.sessions[|s.sessions|].user == p.user && s'.sessions[|s.sessions|].origin == p.origin
      && s'.sessions[|s.sessions|].status == Open
      && (r in s'.procs ==> !s'.procs[r].InsertSession?)
  {
    TakesIssuing(s, r, s.procs[r], c);
  }

  /** Some stale sign-in is in flight, or a stale session has been inserted since there were n of them. */
  ghost predicate Stale(s: State, n: nat, user: nat, v: nat) {
    (exists q :: StaleSignIn(s, q, user, v)) || (exists j :: j >= n && StaleSession(s, j, user, v))
  }

  lemma OlderStale(s: State, s': State, a: nat, n: nat, user: nat, v: nat)
    requires Grows(s, s') && s'.procs - {a} == s.procs - {a} && n <= |s.sessions|
    requires Stale(s', n, user, v)
    requires forall j: nat :: j >= |s.sessions| && StaleSession(s', j, user, v) ==> Stale(s, n, user, v)
    requires StaleSignIn(s', a, user, v) ==> Stale(s, n, user, v)
    ensures Stale(s, n, user, v)
  {
    if q: nat :| StaleSignIn(s', q, user, v) {
      if q != a {
        OthersStay(s, s', a, q);
        assert StaleSignIn(s, q, user, v);
      }
    } else {
      var j: nat :| j >= n && StaleSession(s', j, user, v);
      if j < |s.sessions| {
        assert SessionGrows(s.sessions[j], s'.sessions[j]);
        assert StaleSession(s, j, user, v);
      }
    }
  }

  lemma StepStale(s: State, r: nat, c: Choice, n: nat, user: nat, v: nat)
    requires Inv(s) && r in s.procs && n <= |s.sessions| && Stale(Apply(s, Step(r, c)), n, user, v)
    ensures Stale(s, n, user, v)
  {
    if s.procs[r].InsertSession? {
      SignInStale(s, r, c, Apply(s, Step(r, c)), n, user, v);
    } else {
      OtherStepStale(s, r, c, Apply(s, Step(r, c)), n, user, v);
    }
  }

  lemma SignInStale(s: State, r: nat, c: Choice, s': State, n: nat, user: nat, v: nat)
    requires Inv(s) && r in s.procs && s.procs[r].InsertSession? && n <= |s.sessions|
    requires s' == Apply(s, Step(r, c)) && Stale(s', n, user, v)
    ensures Stale(s, n, user, v)
  {
    EventGood(s, Step(r, c));
    EventHonest(s, Step(r, c), 0);
    SignInInserts(s, r, c);
    InsertedStale(s, s', r, n, user, v);
  }

  lemma InsertedStale(s: State, s': State, r: nat, n: nat, user: nat, v: nat)
    requires Grows(s, s') && s'.procs - {r} == s.procs - {r} && n <= |s.sessions| && Stale(s', n, user, v)
    requires r in s.procs && s.procs[r].InsertSession? && |s'.sessions| == |s.sessions| + 1
    requires s'.sessions[|s.sessions|].user == s.procs[r].user && s'.sessions[|s.sessions|].origin == s.procs[r].origin
    requires r in s'.procs ==> !s'.procs[r].InsertSession?
    ensures Stale(s, n, user, v)
  {
    assert StaleSession(s', |s.sessions|, user, v) ==> StaleSignIn(s, r, user, v);
    OlderStale(s, s', r, n, user, v);
  }

  lemma OtherStepStale(s: State, r: nat, c: Choice, s': State, n: nat, user: nat, v: nat)
    requires Inv(s) && r in s.procs && !s.procs[r].InsertSession? && n <= |s.sessions|
    requires s' == Apply(s, Step(r, c)) && Stale(s', n, user, v)
    ensures Stale(s, n, user, v)
  {
    EventGood(s, Step(r, c));
    EventHonest(s, Step(r, c), 0);
    StepSignsIn(s, r, s.procs[r], c);
    assert NoSignIn(s, s', r);
    OlderStale(s, s', r, n, user, v);
  }

  /** A sign-in that arrives later reads the password as it is then. */
  lemma ArrivalStale(s: State, r: nat, p: Proc, n: nat, user: nat, v: nat)
    requires Inv(s) && v <= Replaced(s.changes, s.resets, user) && n <= |s.sessions|
    requires Stale(Apply(s, Arrive(r, p)), n, user, v)
    ensures Stale(s, n, user, v)
  {
    if r !in s.procs && Initial(p) && ReadsPassword(s, p) {
      EventGood(s, Arrive(r, p));
      ArrivedStale(s, r, p, n, user, v);
    }
  }

  lemma ArrivedStale(s: State, r: nat, p: Proc, n: nat, user: nat, v: nat)
    requires Grows(s, Goto(s, r, p)) && v <= Replaced(s.changes, s.resets, user) && n <= |s.sessions|
    requires r !in s.procs && ReadsPassword(s, p) && Stale(Goto(s, r, p), n, user, v)
    ensures Stale(s, n, user, v)
  {
    var s' := Goto(s, r, p);
    assert s'.procs - {r} == s.procs - {r};
    OlderStale(s, s', r, n, user, v);
  }

  lemma EnvironmentStale(s: State, e: Event, n: nat, user: nat, v: nat)
    requires !e.Arrive? && (e.Step? ==> e.r !in s.procs)
    requires Stale(Apply(s, e), n, user, v)
    ensures Stale(s, n, user, v)
  {
    EnvironmentKeeps(s, e);
    var s' := Apply(s, e);
    if q: nat :| StaleSignIn(s', q, user, v) {
      assert StaleSignIn(s, q, user, v);
    } else {
      var j: nat :| j >= n && StaleSession(s', j, user, v);
      assert StaleSession(s, j, user, v);
    }
  }

  lemma EnvironmentKeeps(s: State, e: Event)
    requires !e.Arrive? && (e.Step? ==> e.r !in s.procs)
    ensures var s' := Apply(s, e);
      s'.sessions == s.sessions && forall q :: q in s'.procs ==> q in s.procs && s'.procs[q] == s.procs[q]
  {
  }

  lemma {:induction false} RunStale(s: State, es: seq<Event>, n: nat, user: nat, v: nat)
    requires Inv(s) && v <= Replaced(s.changes, s.resets, user) && n <= |s.sessions| && Stale(Run(s, es), n, user, v)
    ensures Stale(s, n, user, v)
    decreases |es|
  {
    if |es| == 0 {
      RunNone(s);
    } else {
      var es', e := es[..|es| - 1], es[|es| - 1];
      var m := Run(s, es');
      RunKept(s, es');
      ReplacedKept(s, m, user);
      RunLast(s, es);
      EventStale(m, e, n, user, v);
      RunStale(s, es', n, user, v);
    }
  }

  lemma EventStale(s: State, e: Event, n: nat, user: nat, v: nat)
    requires Inv(s) && v <= Replaced(s.changes, s.resets, user) && n <= |s.sessions| && Stale(Apply(s, e), n, user, v)
    ensures Stale(s, n, user, v)
  {
    if e.Step? && e.r in s.procs {
      StepStale(s, e.r, e.c, n, user, v);
    } else if e.Arrive? {
      ArrivalStale(s, e.r, e.p, n, user, v);
    } else {
      EnvironmentStale(s, e, n, user, v);
    }
  }

  // Across the statement that closes the user's sessions

  predicate OpenSession(s: State, j: nat, user: nat) {
    j < |s.sessions| && s.sessions[j].user == user && s.sessions[j].status == Open
  }

  /** A session of the user is open after that statement, in any later run, only if it was inserted after it. */
  lemma OnlyLaterSessionsOpen(s: State, r: nat, c: Choice, user: nat, es: seq<Event>, j: nat)
    requires Inv(s) && r in s.procs && s.procs[r] == EndUserSessions(user)
    requires OpenSession(Run(Apply(s, Step(r, c)), es), j, user)
    ensures j >= |s.sessions|
  {
    if j < |s.sessions| {
      OldSessionClosed(s, r, c, user, es, j);
    }
  }

  lemma OldSessionClosed(s: State, r: nat, c: Choice, user: nat, es: seq<Event>, j: nat)
    requires Inv(s) && r in s.procs && s.procs[r] == EndUserSessions(user) && j < |s.sessions|
    ensures !OpenSession(Run(Apply(s, Step(r, c)), es), j, user)
  {
    var s1 := Apply(s, Step(r, c));
    EndsSessions(s, r, c, user, j);
    EventGood(s, Step(r, c));
    RunKept(s1, es);
    assert SessionGrows(s1.sessions[j], Run(s1, es).sessions[j]);
  }

  /** In some later state a session opened on a password replaced by then is open. */
  ghost predicate OldPasswordWorks(s1: State, user: nat, v: nat) {
    exists es, j :: OpenSession(Run(s1, es), j, user) && StaleSession(Run(s1, es), j, user, v)
  }

  /**
   When a reset (or a logout of all sessions) closes the user's sessions, a session opened on a
   password that had been replaced by then is open in some later state if and only if, at that
   statement, a sign-in is in flight that read such a password and has not inserted its session yet.
   */
  lemma OldPasswordExactly(s: State, r: nat, c: Choice, user: nat)
    requires Inv(s) && r in s.procs && s.procs[r] == EndUserSessions(user)
    ensures var v := Replaced(s.changes, s.resets, user);
      OldPasswordWorks(Apply(s, Step(r, c)), user, v) <==> exists q :: StaleSignIn(s, q, user, v)
  {
    var s1, v := Apply(s, Step(r, c)), Replaced(s.changes, s.resets, user);
    if OldPasswordWorks(s1, user, v) {
      var es, j :| OpenSession(Run(s1, es), j, user) && StaleSession(Run(s1, es), j, user, v);
      StaleWasWaiting(s, r, c, user, es, j);
    }
    if q :| StaleSignIn(s, q, user, v) {
      StaleGetsIn(s, r, c, user, q);
    }
  }

  lemma SessionsEndOnly(s: State, r: nat, c: Choice, user: nat)
    requires r in s.procs && s.procs[r] == EndUserSessions(user)
    ensures var s1 := Apply(s, Step(r, c));
      && s1.procs == s.procs[r := EndUserTokens(user)] && s1.changes == s.changes && s1.resets == s.resets
      && |s1.sessions| == |s.sessions|
  {
    TakesEnding(s, r, s.procs[r], c);
  }

  lemma StaleWasWaiting(s: State, r: nat, c: Choice, user: nat, es: seq<Event>, j: nat)
    requires Inv(s) && r in s.procs && s.procs[r] == EndUserSessions(user)
    requires var m := Run(Apply(s, Step(r, c)), es);
      OpenSession(m, j, user) && StaleSession(m, j, user, Replaced(s.changes, s.resets, user))
    ensures exists q :: StaleSignIn(s, q, user, Replaced(s.changes, s.resets, user))
  {
    var s1, v := Apply(s, Step(r, c)), Replaced(s.changes, s.resets, user);
    OnlyLaterSessionsOpen(s, r, c, user, es, j);
    SessionsEndOnly(s, r, c, user);
    EventGood(s, Step(r, c));
    RunStale(s1, es, |s.sessions|, user, v);
    var q :| StaleSignIn(s1, q, user, v);
    assert StaleSignIn(s, q, user, v);
  }

  lemma StaleGetsIn(s: State, r: nat, c: Choice, user: nat, q: nat)
    requires Inv(s) && r in s.procs && s.procs[r] == EndUserSessions(user)
    requires StaleSignIn(s, q, user, Replaced(s.changes, s.resets, user))
    ensures OldPasswordWorks(Apply(s, Step(r, c)), user, Replaced(s.changes, s.resets, user))
  {
    var s1, v := Apply(s, Step(r, c)), Replaced(s.changes, s.resets, user);
    SessionsEndOnly(s, r, c, user);
    SignInInserts(s1, q, c);
    RunNone(s1);
    RunThen(s1, [], s1, Step(q, c), Apply(s1, Step(q, c)));
    assert OpenSession(Run(s1, [] + [Step(q, c)]), |s.sessions|, user);
    assert StaleSession(Run(s1, [] + [Step(q, c)]), |s.sessions|, user, v);
  }

  /** Such a moment is reachable, for every user. */
  lemma StaleSignInIsReachable(user: nat) returns (s: State)
    ensures Reachable(s) && 2 in s.procs && s.procs[2] == EndUserSessions(user)
    ensures StaleSignIn(s, 0, user, Replaced(s.changes, s.resets, user))
  {
    var s1 := SignInArrives(user);
    s := ResetArrives(s1, user);
    assert s.changes == [0];
    assert Replaced(s.changes[..0], s.resets, user) == 0;
  }
}
