/** Sessions over whole runs: revocation wins every race, and the cached read is a database read. */
module Sessions {
  import opened Basics
  import opened Tables
  import opened Machine
  import opened Invariant
  import opened Preservation
  import opened Steps
  import opened Families

  // Revocation

  predicate ClosedSession(s: State, sid: nat) {
    sid < |s.sessions| && s.sessions[sid].status == Closed
  }

  /** The request has read the session as open, or created it, and will not read it again. */
  predicate PastRead(p: Proc, sid: nat) {
    match p
    case SetCached(id, row, _) => id == sid && row.status == Open
    case Resume(id, found, _) => id == sid && found.Some? && found.value.status == Open
    case InsertRoot(id, _, _, _, _) => id == sid
    case _ => false
  }

  /** The session an access token was handed out for, and the request that did. */
  predicate GrantFor(g: Grant, r: nat, sid: nat) {
    match g
    case Refreshed(request, _, _, session, _) => request == r && session == sid
    case SignedIn(request, session, _) => request == r && session == sid
    case ClientToken(_, _) => false
  }

  /** Only request r moved; of a closed session it read nothing open and was paid only for an earlier read. */
  ghost predicate Honest(s: State, s': State, r: nat, sid: nat) {
    && s'.procs - {r} == s.procs - {r}
    && (ClosedSession(s, sid) && r in s'.procs && PastRead(s'.procs[r], sid) ==>
         r in s.procs && PastRead(s.procs[r], sid))
    && (forall k, q :: |s.grants| <= k < |s'.grants| && GrantFor(s'.grants[k], q, sid) ==>
          q == r && r in s.procs && PastRead(s.procs[r], sid))
  }

  lemma ResumeHonest(s: State, r: nat, id: nat, found: Option<SessionRow>, why: Purpose, admin: bool, sid: nat)
    requires r in s.procs && s.procs[r] == Resume(id, found, why) && ProcOk(s, s.procs[r])
    ensures Honest(s, DoResume(s, r, found, id, why, admin), r, sid)
  {
  }

  /** A request that is paid nothing for the session and has not read it. */
  lemma UnpaidHonest(s: State, s': State, r: nat, sid: nat)
    requires s'.procs - {r} == s.procs - {r} && (r in s'.procs ==> !PastRead(s'.procs[r], sid))
    requires s.grants <= s'.grants && forall k :: |s.grants| <= k < |s'.grants| ==> s'.grants[k].ClientToken?
    ensures Honest(s, s', r, sid)
  {
  }

  lemma ConsumingHonest(s: State, r: nat, p: Proc, c: Choice, sid: nat)
    requires r in s.procs && s.procs[r] == p && (p.UpdateRotated? || p.InsertSuccessor?)
    ensures Honest(s, StepRotating(s, r, p, c), r, sid)
  {
    UnpaidHonest(s, StepRotating(s, r, p, c), r, sid);
  }

  lemma IdentifyingHonest(s: State, r: nat, p: Proc, c: Choice, sid: nat)
    requires r in s.procs && s.procs[r] == p && p.SelectClient?
    ensures Honest(s, StepRotating(s, r, p, c), r, sid)
  {
    SelectClientUnpaid(s, r, p.clientId, p.secret, p.grant, sid);
    UnpaidHonest(s, StepRotating(s, r, p, c), r, sid);
  }

  lemma SelectClientUnpaid(s: State, r: nat, client: nat, secret: Option<Text>, grant: TokenForm, sid: nat)
    ensures var s' := DoSelectClient(s, r, client, secret, grant);
      && s'.procs - {r} == s.procs - {r} && (r in s'.procs ==> !PastRead(s'.procs[r], sid))
      && s.grants <= s'.grants && forall k :: |s.grants| <= k < |s'.grants| ==> s'.grants[k].ClientToken?
  {
  }

  lemma RotatingHonest(s: State, r: nat, p: Proc, c: Choice, sid: nat)
    requires r in s.procs && s.procs[r] == p && ProcOk(s, p) && Rotating(p)
    ensures Honest(s, StepRotating(s, r, p, c), r, sid)
  {
    if p.Resume? {
      ResumeHonest(s, r, p.session, p.found, p.why, c.ok, sid);
    } else if p.SelectClient? {
      IdentifyingHonest(s, r, p, c, sid);
    } else {
      ConsumingHonest(s, r, p, c, sid);
    }
  }

  lemma RevokingHonest(s: State, r: nat, p: Proc, c: Choice, sid: nat)
    requires r in s.procs && s.procs[r] == p && ProcOk(s, p) && Revoking(p)
    ensures Honest(s, StepRevoking(s, r, p, c), r, sid)
  {
  }

  lemma EndingHonest(s: State, r: nat, p: Proc, c: Choice, sid: nat)
    requires r in s.procs && s.procs[r] == p && ProcOk(s, p) && Ending(p)
    ensures Honest(s, StepEnding(s, r, p, c), r, sid)
  {
  }

  lemma FindingHonest(s: State, r: nat, p: Proc, c: Choice, sid: nat)
    requires r in s.procs && s.procs[r] == p && ProcOk(s, p) && Finding(p)
    requires sid in s.cache ==> Snapshot(s.sessions, sid, s.cache[sid])
    ensures Honest(s, StepFinding(s, r, p, c), r, sid)
  {
  }

  lemma ChallengingHonest(s: State, r: nat, p: Proc, c: Choice, sid: nat)
    requires r in s.procs && s.procs[r] == p && ProcOk(s, p) && Challenging(p)
    ensures Honest(s, StepChallenging(s, r, p, c), r, sid)
  {
  }

  lemma AuthorizingHonest(s: State, r: nat, p: Proc, c: Choice, sid: nat)
    requires r in s.procs && s.procs[r] == p && ProcOk(s, p) && Authorizing(p)
    ensures Honest(s, StepAuthorizing(s, r, p, c), r, sid)
  {
  }

  lemma SigningInHonest(s: State, r: nat, p: Proc, c: Choice, sid: nat)
    requires r in s.procs && s.procs[r] == p && ProcOk(s, p) && (p.InsertRoot? || p.InsertSession?)
    ensures Honest(s, StepIssuing(s, r, p, c), r, sid)
  {
  }

  lemma SpendingHonest(s: State, r: nat, p: Proc, c: Choice, sid: nat)
    requires r in s.procs && s.procs[r] == p && Issuing(p) && !p.InsertRoot? && !p.InsertSession?
    ensures Honest(s, StepIssuing(s, r, p, c), r, sid)
  {
    UnpaidHonest(s, StepIssuing(s, r, p, c), r, sid);
  }

  lemma IssuingHonest(s: State, r: nat, p: Proc, c: Choice, sid: nat)
    requires r in s.procs && s.procs[r] == p && ProcOk(s, p) && Issuing(p)
    ensures Honest(s, StepIssuing(s, r, p, c), r, sid)
  {
    if p.InsertRoot? || p.InsertSession? {
      SigningInHonest(s, r, p, c, sid);
    } else {
      SpendingHonest(s, r, p, c, sid);
    }
  }

  lemma StepHonest(s: State, r: nat, p: Proc, c: Choice, sid: nat)
    requires Inv(s) && r in s.procs && s.procs[r] == p
    ensures Honest(s, StepProc(s, r, p, c), r, sid)
  {
    assert ProcOk(s, s.procs[r]);
    if Rotating(p) {
      RotatingHonest(s, r, p, c, sid);
    } else if Revoking(p) {
      RevokingHonest(s, r, p, c, sid);
    } else if Ending(p) {
      EndingHonest(s, r, p, c, sid);
    } else if Finding(p) {
      FindingHonest(s, r, p, c, sid);
    } else if Challenging(p) {
      ChallengingHonest(s, r, p, c, sid);
    } else if Authorizing(p) {
      AuthorizingHonest(s, r, p, c, sid);
    } else {
      IssuingHonest(s, r, p, c, sid);
    }
  }

  /** The request an event moves; for the environment's events, one that is not in flight. */
  ghost function Actor(s: State, e: Event): nat {
    match e
    case Step(r, _) => r
    case Arrive(r, _) => r
    case Abort(r) => r
    case _ => Above(s.procs.Keys)
  }

  lemma EnvironmentHonest(s: State, e: Event, sid: nat)
    requires e.Step? ==> e.r !in s.procs
    ensures Honest(s, Apply(s, e), Actor(s, e), sid)
  {
  }

  lemma EventHonest(s: State, e: Event, sid: nat)
    requires Inv(s)
    ensures Honest(s, Apply(s, e), Actor(s, e), sid)
  {
    if e.Step? && e.r in s.procs {
      StepHonest(s, e.r, s.procs[e.r], e.c, sid);
    } else {
      EnvironmentHonest(s, e, sid);
    }
  }

  /**
   Revocation wins every race. Once a session is closed, an access token is handed out for it only
   by a request that had already read it as open.
   */
  lemma {:induction false} RevocationWins(s: State, es: seq<Event>, sid: nat, k: nat, r: nat)
    requires Inv(s) && ClosedSession(s, sid)
    requires |s.grants| <= k < |Run(s, es).grants| && GrantFor(Run(s, es).grants[k], r, sid)
    ensures r in s.procs && PastRead(s.procs[r], sid)
    decreases |es|
  {
    var m := Run(s, es[..|es| - 1]);
    RunKept(s, es[..|es| - 1]);
    EventHonest(m, es[|es| - 1], sid);
    EventGood(m, es[|es| - 1]);
    if k < |m.grants| {
      RevocationWins(s, es[..|es| - 1], sid, k, r);
    } else {
      PastReadOnlyShrinks(s, es[..|es| - 1], sid, r);
    }
  }

  lemma OthersStay(s: State, s': State, q: nat, r: nat)
    requires s'.procs - {q} == s.procs - {q} && r != q
    ensures r in s'.procs <==> r in s.procs
    ensures r in s.procs ==> s'.procs[r] == s.procs[r]
  {
    assert r in s'.procs <==> r in s'.procs - {q};
    assert r in s.procs <==> r in s.procs - {q};
    if r in s.procs {
      assert (s'.procs - {q})[r] == (s.procs - {q})[r];
    }
  }

  lemma {:induction false} PastReadOnlyShrinks(s: State, es: seq<Event>, sid: nat, r: nat)
    requires Inv(s) && ClosedSession(s, sid)
    requires r in Run(s, es).procs && PastRead(Run(s, es).procs[r], sid)
    ensures r in s.procs && PastRead(s.procs[r], sid)
    decreases |es|
  {
    if |es| > 0 {
      var m := Run(s, es[..|es| - 1]);
      var e := es[|es| - 1];
      RunKept(s, es[..|es| - 1]);
      EventHonest(m, e, sid);
      if r != Actor(m, e) {
        OthersStay(m, Apply(m, e), Actor(m, e), r);
      }
      PastReadOnlyShrinks(s, es[..|es| - 1], sid, r);
    }
  }

  /** A refresh that finds its session closed, as the family's only rotation in flight, kills the family for ever. */
  lemma RefusedRefreshKillsFamily(s: State, r: nat, c: Choice, es: seq<Event>)
    requires Inv(s) && r in s.procs && s.procs[r].Resume? && s.procs[r].why.ForRefresh?
    requires s.procs[r].found.None? || s.procs[r].found.value.status == Closed
    requires InFlight(s, s.procs[r].why.row.family) == {}
    ensures Apply(s, Step(r, c)).grants == s.grants
    ensures Dead(Run(Apply(s, Step(r, c)), es), s.procs[r].why.row.family)
  {
    var family := s.procs[r].why.row.family;
    RefusedPaysNothing(s, r, c);
    RefusedKills(s, r, c, family);
    EventGood(s, Step(r, c));
    DeadForever(Apply(s, Step(r, c)), es, family);
  }

  lemma RefusedPaysNothing(s: State, r: nat, c: Choice)
    requires r in s.procs && s.procs[r].Resume? && s.procs[r].why.ForRefresh?
    requires s.procs[r].found.None? || s.procs[r].found.value.status == Closed
    ensures Apply(s, Step(r, c)).grants == s.grants
  {
  }

  lemma RefusedKills(s: State, r: nat, c: Choice, family: nat)
    requires Inv(s) && r in s.procs && s.procs[r].Resume? && s.procs[r].why.ForRefresh?
    requires s.procs[r].found.None? || s.procs[r].found.value.status == Closed
    requires s.procs[r].why.row.family == family && InFlight(s, family) == {}
    ensures Dead(Apply(s, Step(r, c)), family)
  {
    assert ProcOk(s, s.procs[r]);
    RevocationKills(s, r, c, family);
  }

  // findById

  /** What findById returns, against what a direct read of the sessions table returns. */
  predicate Answers(found: Option<SessionRow>, row: Option<SessionRow>) {
    && (found.Some? <==> row.Some?)
    && (found.Some? ==> found.value.status == row.value.status && (found.value.status == Open ==> found == row))
  }

  /** The request is executing findById(sid), or has just got its result. */
  predicate InFind(p: Proc, sid: nat, why: Purpose) {
    match p
    case GetCached(id, w) => id == sid && w == why
    case SelectSession(id, _, w) => id == sid && w == why
    case SetCached(id, _, w) => id == sid && w == why
    case DelCached(id, w) => id == sid && w == why
    case Resume(id, _, w) => id == sid && w == why
    case _ => false
  }

  ghost predicate RowAt(s: State, es: seq<Event>, n: int, sid: nat, row: Option<SessionRow>) {
    0 <= n <= |es| && SessionById(Run(s, es[..n]).sessions, sid) == row
  }

  /** During the run, some state had this row as the session's row. */
  ghost predicate WasRow(s: State, es: seq<Event>, sid: nat, row: Option<SessionRow>) {
    exists n :: RowAt(s, es, n, sid, row)
  }

  ghost predicate WasAnswer(s: State, es: seq<Event>, sid: nat, found: Option<SessionRow>) {
    exists row :: WasRow(s, es, sid, row) && Answers(found, row)
  }

  ghost predicate Justified(s: State, es: seq<Event>, p: Proc, sid: nat) {
    && (p.SetCached? ==> WasRow(s, es, sid, Some(p.loaded)))
    && (p.DelCached? ==> WasRow(s, es, sid, None))
    && (p.Resume? ==> WasAnswer(s, es, sid, p.found))
  }

  lemma WasRowLonger(s: State, es: seq<Event>, e: Event, sid: nat, row: Option<SessionRow>)
    requires WasRow(s, es, sid, row)
    ensures WasRow(s, es + [e], sid, row)
  {
    var n :| RowAt(s, es, n, sid, row);
    assert (es + [e])[..n] == es[..n];
    assert RowAt(s, es + [e], n, sid, row);
  }

  lemma WasRowNow(s: State, es: seq<Event>, sid: nat)
    ensures WasRow(s, es, sid, SessionById(Run(s, es).sessions, sid))
  {
    assert es[..|es|] == es;
    assert RowAt(s, es, |es|, sid, SessionById(Run(s, es).sessions, sid));
  }

  lemma WasAnswerLonger(s: State, es: seq<Event>, e: Event, sid: nat, found: Option<SessionRow>)
    requires WasAnswer(s, es, sid, found)
    ensures WasAnswer(s, es + [e], sid, found)
  {
    var row :| WasRow(s, es, sid, row) && Answers(found, row);
    WasRowLonger(s, es, e, sid, row);
  }

  lemma JustifiedLonger(s: State, es: seq<Event>, e: Event, p: Proc, sid: nat)
    requires Justified(s, es, p, sid)
    ensures Justified(s, es + [e], p, sid)
  {
    if p.SetCached? { WasRowLonger(s, es, e, sid, Some(p.loaded)); }
    if p.DelCached? { WasRowLonger(s, es, e, sid, None); }
    if p.Resume? { WasAnswerLonger(s, es, e, sid, p.found); }
  }

  predicate FindMoves(p: Proc, p': Proc, sid: nat, why: Purpose, row: SessionRow) {
    match p
    case GetCached(_, _) => p'.SelectSession? || (p'.Resume? && Answers(p'.found, Some(row)))
    case SelectSession(_, _, _) => p' == SetCached(sid, row, why)
    case SetCached(_, loaded, _) => p' == Resume(sid, Some(loaded), why)
    case DelCached(_, _) => p' == Resume(sid, None, why)
    case _ => false
  }

  lemma FindSession(m: State, r: nat, sid: nat, why: Purpose)
    requires Inv(m) && r in m.procs && InFind(m.procs[r], sid, why)
    ensures sid < |m.sessions|
  {
    assert ProcOk(m, m.procs[r]);
  }

  /** What the next statement of findById makes of the session's row. */
  lemma FindMove(m: State, r: nat, c: Choice, sid: nat, why: Purpose)
    requires Inv(m) && r in m.procs && InFind(m.procs[r], sid, why) && !m.procs[r].Resume?
    ensures sid < |m.sessions|
    ensures r in Apply(m, Step(r, c)).procs
    ensures FindMoves(m.procs[r], Apply(m, Step(r, c)).procs[r], sid, why, m.sessions[sid])
  {
    FindSession(m, r, sid, why);
    TakesFinding(m, r, m.procs[r], c);
    if sid in m.cache {
      assert Snapshot(m.sessions, sid, m.cache[sid]);
    }
  }

  /** After the read there is no way back into the call. */
  lemma ResumeLeaves(m: State, r: nat, c: Choice, sid: nat, why: Purpose)
    requires r in m.procs && m.procs[r].Resume?
    ensures var s' := Apply(m, Step(r, c)); r in s'.procs ==> !InFind(s'.procs[r], sid, why)
  {
  }

  lemma FindStep(s: State, es: seq<Event>, r: nat, c: Choice, sid: nat, why: Purpose)
    requires var m := Run(s, es);
      Inv(m) && r in m.procs && InFind(m.procs[r], sid, why) && Justified(s, es, m.procs[r], sid) && !m.procs[r].Resume?
    ensures var s' := Apply(Run(s, es), Step(r, c)); r in s'.procs && Justified(s, es + [Step(r, c)], s'.procs[r], sid)
  {
    var m := Run(s, es);
    FindMove(m, r, c, sid, why);
    WasRowNow(s, es, sid);
    WasRowLonger(s, es, Step(r, c), sid, Some(m.sessions[sid]));
    JustifiedLonger(s, es, Step(r, c), m.procs[r], sid);
    match m.procs[r]
    case SetCached(_, row, _) => assert Answers(Some(row), Some(row));
    case DelCached(_, _) => assert Answers(None, None);
    case _ =>
  }

  /** One event while request r is inside findById. */
  lemma FindEvent(s: State, es: seq<Event>, e: Event, r: nat, sid: nat, why: Purpose)
    requires var m := Run(s, es);
      Inv(m) && r in m.procs && InFind(m.procs[r], sid, why) && Justified(s, es, m.procs[r], sid)
    requires var s' := Apply(Run(s, es), e); r in s'.procs && InFind(s'.procs[r], sid, why)
    ensures Justified(s, es + [e], Apply(Run(s, es), e).procs[r], sid)
  {
    var m := Run(s, es);
    if Actor(m, e) != r {
      EventHonest(m, e, sid);
      OthersStay(m, Apply(m, e), Actor(m, e), r);
      JustifiedLonger(s, es, e, m.procs[r], sid);
    } else if e.Step? {
      if m.procs[r].Resume? {
        ResumeLeaves(m, r, e.c, sid, why);
      } else {
        FindStep(s, es, r, e.c, sid, why);
      }
    } else {
      JustifiedLonger(s, es, e, m.procs[r], sid);
    }
  }

  predicate FindingAt(s: State, r: nat, sid: nat, why: Purpose) {
    r in s.procs && InFind(s.procs[r], sid, why)
  }

  /** Request r is in the call from the start of the run to its end. */
  ghost predicate FindingDuring(s: State, es: seq<Event>, r: nat, sid: nat, why: Purpose) {
    forall n :: 0 <= n <= |es| ==> FindingAt(Run(s, es[..n]), r, sid, why)
  }

  lemma ShorterFinding(s: State, es: seq<Event>, r: nat, sid: nat, why: Purpose)
    requires FindingDuring(s, es, r, sid, why) && |es| > 0
    ensures FindingDuring(s, es[..|es| - 1], r, sid, why)
  {
    var es' := es[..|es| - 1];
    forall n | 0 <= n <= |es'|
      ensures FindingAt(Run(s, es'[..n]), r, sid, why)
    {
      assert es'[..n] == es[..n];
    }
  }

  lemma FindingAtEnd(s: State, es: seq<Event>, r: nat, sid: nat, why: Purpose)
    requires FindingDuring(s, es, r, sid, why)
    ensures FindingAt(Run(s, es), r, sid, why)
  {
    assert es[..|es|] == es;
  }

  /**
   The cached findById is a database read. Under any interleaving of fills, deletions, evictions and
   revocations, the status it returns is the status a direct read would have returned at some moment
   of the call, and an active result is the whole row of that moment.
   */
  lemma {:induction false} FindByIdIsDatabaseRead(s: State, es: seq<Event>, r: nat, sid: nat, why: Purpose,
        found: Option<SessionRow>)
    requires Inv(s) && r in s.procs && s.procs[r] == GetCached(sid, why)
    requires FindingDuring(s, es, r, sid, why)
    requires r in Run(s, es).procs && Run(s, es).procs[r] == Resume(sid, found, why)
    ensures exists n :: 0 <= n <= |es| && Answers(found, SessionById(Run(s, es[..n]).sessions, sid))
  {
    FindJustified(s, es, r, sid, why);
    var row :| WasRow(s, es, sid, row) && Answers(found, row);
    var n :| RowAt(s, es, n, sid, row);
  }

  lemma {:induction false} FindJustified(s: State, es: seq<Event>, r: nat, sid: nat, why: Purpose)
    requires Inv(s) && r in s.procs && s.procs[r] == GetCached(sid, why) && FindingDuring(s, es, r, sid, why)
    ensures r in Run(s, es).procs && Justified(s, es, Run(s, es).procs[r], sid)
    decreases |es|
  {
    if |es| == 0 {
      RunNone(s);
      assert es == [];
    } else {
      ShorterFinding(s, es, r, sid, why);
      FindJustified(s, es[..|es| - 1], r, sid, why);
      FindJustifiedMore(s, es, r, sid, why);
    }
  }

  lemma FindJustifiedMore(s: State, es: seq<Event>, r: nat, sid: nat, why: Purpose)
    requires Inv(s) && |es| > 0 && FindingDuring(s, es, r, sid, why) && FindingDuring(s, es[..|es| - 1], r, sid, why)
    requires var m := Run(s, es[..|es| - 1]); r in m.procs && Justified(s, es[..|es| - 1], m.procs[r], sid)
    ensures r in Run(s, es).procs && Justified(s, es, Run(s, es).procs[r], sid)
  {
    var es', e := es[..|es| - 1], es[|es| - 1];
    RunKept(s, es');
    FindingAtEnd(s, es', r, sid, why);
    FindingAtEnd(s, es, r, sid, why);
    RunLast(s, es);
    SplitLast(es);
    FindEventTo(s, es', e, es, Run(s, es'), Run(s, es), r, sid, why);
  }

  lemma FindEventTo(s: State, es': seq<Event>, e: Event, es: seq<Event>, m: State, m': State, r: nat, sid: nat,
        why: Purpose)
    requires m == Run(s, es') && m' == Apply(m, e) && es == es' + [e]
    requires Inv(m) && FindingAt(m, r, sid, why) && Justified(s, es', m.procs[r], sid) && FindingAt(m', r, sid, why)
    ensures Justified(s, es, m'.procs[r], sid)
  {
    FindEvent(s, es', e, r, sid, why);
  }
}
