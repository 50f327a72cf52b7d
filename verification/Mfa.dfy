/** The login-time second factor over whole runs. */
module Mfa {
  import opened Basics
  import opened Tables
  import opened Machine
  import opened Invariant
  import opened Preservation
  import opened Steps
  import opened Families
  import opened Sessions

  /** A session opened for an MFA challenge has refresh tokens only after a code for it passed. */
  lemma TokensNeedSecondFactor(s: State, i: nat)
    requires Reachable(s)
    requires i < |s.tokens|
    ensures var sid := s.tokens[i].session;
      && sid < |s.sessions|
      && (s.sessions[sid].origin.SecondFactor? ==> s.sessions[sid].mfaPassed && Passed(s.checks, sid))
  {
    ReachableSound(s);
    var sid := s.tokens[i].session;
    assert RowOk(s, s.tokens[i]);
    assert SessionOk(s, sid, s.sessions[sid]);
  }

  // Attempts

  /** The codes checked for a challenge with this verdict. */
  function CheckCount(checks: seq<Check>, id: nat, passed: bool): nat {
    if |checks| == 0 then 0
    else
      var last := checks[|checks| - 1];
      CheckCount(checks[..|checks| - 1], id, passed) + (if last.challenge == id && last.passed == passed then 1 else 0)
  }

  lemma CheckCountAppend(checks: seq<Check>, c: Check, id: nat, passed: bool)
    ensures CheckCount(checks + [c], id, passed)
         == CheckCount(checks, id, passed) + (if c.challenge == id && c.passed == passed then 1 else 0)
  {
    assert (checks + [c])[..|checks|] == checks;
  }

  /** The request has read the challenge and has not yet written its verdict back. */
  predicate Verifying(p: Proc, id: nat) {
    (p.CheckCode? || p.SetAttempts? || p.PassSession? || p.DelChallenge?) && p.challenge == id
  }

  predicate OpenChallenge(s: State, id: nat) { id in s.challenges && s.challenges[id].attempts < MAX_MFA_ATTEMPTS }

  ghost predicate Alone(s: State, id: nat) {
    forall q, r :: q in s.procs && r in s.procs && Verifying(s.procs[q], id) && Verifying(s.procs[r], id) ==> q == r
  }

  /** At most one verification of the challenge in flight, at every moment of the run. */
  ghost predicate OneAtATime(es: seq<Event>, id: nat) {
    forall n :: 0 <= n <= |es| ==> Alone(Run(Init, es[..n]), id)
  }

  /** The event kills a verification between its verdict on the code and the statement that makes the verdict stick. */
  predicate CutsShort(s: State, e: Event, id: nat, passed: bool) {
    && e.Abort? && e.r in s.procs && Verifying(s.procs[e.r], id)
    && if passed then s.procs[e.r].PassSession? || s.procs[e.r].DelChallenge? else s.procs[e.r].SetAttempts?
  }

  /** How many verifications with this verdict were cut short during the run. */
  function CutShort(es: seq<Event>, id: nat, passed: bool): nat
    decreases |es|
  {
    if |es| == 0 then 0
    else
      var before := es[..|es| - 1];
      CutShort(before, id, passed) + (if CutsShort(Run(Init, before), es[|es| - 1], id, passed) then 1 else 0)
  }

  /** Where a verification stands, against the verdicts that were not cut short. */
  predicate Progress(p: Proc, failed: int, passed: int) {
    match p
    case CheckCode(_, seen) => seen.attempts == failed < MAX_MFA_ATTEMPTS && passed == 0
    case SetAttempts(_, seen) => seen.attempts + 1 == failed <= MAX_MFA_ATTEMPTS && passed == 0
    case PassSession(_, seen) => seen.attempts == failed < MAX_MFA_ATTEMPTS && passed == 1
    case DelChallenge(_, seen) => seen.attempts == failed < MAX_MFA_ATTEMPTS && passed == 1
    case _ => true
  }

  ghost predicate Busy(s: State, id: nat) {
    exists r :: r in s.procs && Verifying(s.procs[r], id)
  }

  /** The codes checked, less the verifications cut short, are what the challenge remembers. */
  ghost predicate Counted(s: State, id: nat, lostFails: nat, lostPasses: nat) {
    var failed := CheckCount(s.checks, id, false) - lostFails;
    var passed := CheckCount(s.checks, id, true) - lostPasses;
    && 0 <= failed <= MAX_MFA_ATTEMPTS && 0 <= passed <= 1 && failed + passed <= MAX_MFA_ATTEMPTS
    && (forall r :: r in s.procs && Verifying(s.procs[r], id) ==>
          Progress(s.procs[r], failed, passed) && (id in s.challenges ==> s.challenges[id] == s.procs[r].seen))
    && (id in s.challenges && !Busy(s, id) ==> s.challenges[id].attempts == failed && passed == 0)
    && (id !in s.challengeIds ==> failed == 0 && passed == 0 && id !in s.challenges && !Busy(s, id))
  }

  /** No new verification of id, no code checked, no challenge written. */
  ghost predicate Irrelevant(s: State, s': State, r: nat, id: nat) {
    && s'.checks == s.checks && s'.challengeIds == s.challengeIds
    && (id in s'.challenges ==> id in s.challenges && s'.challenges[id] == s.challenges[id])
    && (r in s'.procs ==> !Verifying(s'.procs[r], id))
  }

  lemma ResumeIrrelevant(s: State, r: nat, sid: nat, found: Option<SessionRow>, why: Purpose, admin: bool, id: nat)
    ensures Irrelevant(s, DoResume(s, r, found, sid, why, admin), r, id)
  {
  }

  lemma RotatingIrrelevant(s: State, r: nat, p: Proc, c: Choice, id: nat)
    requires r in s.procs && s.procs[r] == p && Rotating(p)
    ensures Irrelevant(s, StepRotating(s, r, p, c), r, id)
  {
    match p
    case Resume(sid, found, why) => ResumeIrrelevant(s, r, sid, found, why, c.ok, id);
    case UpdateRotated(_, _) =>
    case InsertSuccessor(_, _, _) =>
    case SelectClient(_, _, _) =>
  }

  lemma IssuingIrrelevant(s: State, r: nat, p: Proc, c: Choice, id: nat)
    requires r in s.procs && s.procs[r] == p && Issuing(p)
    ensures Irrelevant(s, StepIssuing(s, r, p, c), r, id)
  {
    match p
    case InsertSession(_, _, _, _) =>
    case InsertRoot(_, _, _, _, _) =>
    case InsertCode(_, _) =>
    case ConsumeCode(_, _, _) =>
    case UseReset(_, _) =>
    case SetPassword(_, _) =>
  }

  lemma RevokingIrrelevant(s: State, r: nat, p: Proc, c: Choice, id: nat)
    requires Revoking(p)
    ensures Irrelevant(s, StepRevoking(s, r, p, c), r, id)
  {
  }

  lemma EndingIrrelevant(s: State, r: nat, p: Proc, c: Choice, id: nat)
    requires Ending(p)
    ensures Irrelevant(s, StepEnding(s, r, p, c), r, id)
  {
  }

  lemma FindingIrrelevant(s: State, r: nat, p: Proc, c: Choice, id: nat)
    requires Finding(p)
    ensures Irrelevant(s, StepFinding(s, r, p, c), r, id)
  {
  }

  lemma AuthorizingIrrelevant(s: State, r: nat, p: Proc, c: Choice, id: nat)
    requires Authorizing(p)
    ensures Irrelevant(s, StepAuthorizing(s, r, p, c), r, id)
  {
  }

  /** A request's step, unless it is a step of the challenge's own life. */
  lemma StepIrrelevant(s: State, r: nat, p: Proc, c: Choice, id: nat)
    requires r in s.procs && s.procs[r] == p && !Challenging(p)
    ensures Irrelevant(s, StepProc(s, r, p, c), r, id)
  {
    if Rotating(p) {
      RotatingIrrelevant(s, r, p, c, id);
    } else if Revoking(p) {
      RevokingIrrelevant(s, r, p, c, id);
    } else if Ending(p) {
      EndingIrrelevant(s, r, p, c, id);
    } else if Finding(p) {
      FindingIrrelevant(s, r, p, c, id);
    } else if Authorizing(p) {
      AuthorizingIrrelevant(s, r, p, c, id);
    } else {
      IssuingIrrelevant(s, r, p, c, id);
    }
  }

  lemma EnvironmentIrrelevant(s: State, e: Event, id: nat)
    requires !e.Step? || e.r !in s.procs
    ensures Irrelevant(s, Apply(s, e), Actor(s, e), id) || Apply(s, e) == s
  {
  }

  /** An event that is none of the challenge's business keeps the count. */
  lemma IrrelevantCounted(s: State, s': State, r: nat, id: nat, lf: nat, lp: nat)
    requires Counted(s, id, lf, lp) && s'.procs - {r} == s.procs - {r} && Irrelevant(s, s', r, id)
    requires r in s.procs ==> !Verifying(s.procs[r], id)
    ensures Counted(s', id, lf, lp)
  {
    forall q | q in s'.procs && Verifying(s'.procs[q], id)
      ensures q in s.procs && s'.procs[q] == s.procs[q]
    {
      OthersStay(s, s', r, q);
    }
    forall q | q in s.procs && Verifying(s.procs[q], id)
      ensures q in s'.procs && s'.procs[q] == s.procs[q]
    {
      OthersStay(s, s', r, q);
    }
  }

  /** A verification of another challenge. */
  lemma OtherChallengeCounted(s: State, r: nat, p: Proc, c: Choice, id: nat, lf: nat, lp: nat)
    requires Counted(s, id, lf, lp) && r in s.procs && s.procs[r] == p && Challenging(p) && !p.SetChallenge?
    requires p.challenge != id
    requires StepChallenging(s, r, p, c).procs - {r} == s.procs - {r}
    ensures Counted(StepChallenging(s, r, p, c), id, lf, lp)
  {
    if p.CheckCode? {
      OtherCodeChecked(s, r, p.challenge, p.seen, c.ok, id, lf, lp);
    } else {
      IrrelevantCounted(s, StepChallenging(s, r, p, c), r, id, lf, lp);
    }
  }

  lemma OtherCodeChecked(s: State, r: nat, other: nat, seen: Challenge, ok: bool, id: nat, lf: nat, lp: nat)
    requires Counted(s, id, lf, lp) && r in s.procs && s.procs[r] == CheckCode(other, seen) && other != id
    requires DoCheckCode(s, r, other, seen, ok).procs - {r} == s.procs - {r}
    ensures Counted(DoCheckCode(s, r, other, seen, ok), id, lf, lp)
  {
    var s' := DoCheckCode(s, r, other, seen, ok);
    var m := s'.(checks := s.checks);
    CheckCountAppend(s.checks, Check(other, seen.session, ok), id, true);
    CheckCountAppend(s.checks, Check(other, seen.session, ok), id, false);
    IrrelevantCounted(s, m, r, id, lf, lp);
    SameCounts(m, s'.checks, id, lf, lp);
  }

  lemma SameCounts(s: State, checks: seq<Check>, id: nat, lf: nat, lp: nat)
    requires Counted(s, id, lf, lp)
    requires CheckCount(checks, id, true) == CheckCount(s.checks, id, true)
    requires CheckCount(checks, id, false) == CheckCount(s.checks, id, false)
    ensures Counted(s.(checks := checks), id, lf, lp)
  {
  }

  lemma SameOthers(s: State, s': State, r: nat)
    requires s'.procs - {r} == s.procs - {r}
    ensures forall q :: q != r ==> (q in s.procs <==> q in s'.procs)
    ensures forall q :: q != r && q in s.procs ==> s'.procs[q] == s.procs[q]
  {
    forall q | q != r
      ensures q in s.procs <==> q in s'.procs
      ensures q in s.procs ==> s'.procs[q] == s.procs[q]
    {
      OthersStay(s, s', r, q);
    }
  }

  /** The creation of a challenge, under a fresh id. */
  lemma CreationCounted(s: State, r: nat, user: nat, sid: nat, newId: nat, id: nat, lf: nat, lp: nat)
    requires Counted(s, id, lf, lp) && r in s.procs && s.procs[r] == SetChallenge(user, sid)
    ensures Counted(DoSetChallenge(s, r, user, sid, newId), id, lf, lp)
  {
    if newId !in s.challengeIds {
      IrrelevantCounted(s, Finish(s, r), r, id, lf, lp);
      ChallengeAdded(Finish(s, r), user, sid, newId, id, lf, lp);
    }
  }

  lemma ChallengeAdded(s: State, user: nat, sid: nat, newId: nat, id: nat, lf: nat, lp: nat)
    requires Counted(s, id, lf, lp) && newId !in s.challengeIds
    ensures Counted(s.(challenges := s.challenges[newId := Challenge(user, sid, 0)],
                       challengeIds := s.challengeIds + {newId}), id, lf, lp)
  {
    var s' := s.(challenges := s.challenges[newId := Challenge(user, sid, 0)],
                 challengeIds := s.challengeIds + {newId});
    assert Busy(s', id) == Busy(s, id);
  }

  /** Reading the challenge, when nobody else is verifying it. */
  lemma ReadCounted(s: State, r: nat, id: nat, lf: nat, lp: nat)
    requires Counted(s, id, lf, lp) && r in s.procs && s.procs[r] == GetChallenge(id)
    requires DoGetChallenge(s, r, id).procs - {r} == s.procs - {r} && Alone(DoGetChallenge(s, r, id), id)
    ensures Counted(DoGetChallenge(s, r, id), id, lf, lp)
  {
    if OpenChallenge(s, id) {
      OpenRead(s, r, id, lf, lp);
    } else {
      IrrelevantCounted(s, DoGetChallenge(s, r, id), r, id, lf, lp);
    }
  }

  lemma OpenRead(s: State, r: nat, id: nat, lf: nat, lp: nat)
    requires Counted(s, id, lf, lp) && r in s.procs && s.procs[r] == GetChallenge(id) && OpenChallenge(s, id)
    requires Alone(Goto(s, r, CheckCode(id, s.challenges[id])), id)
    ensures Counted(Goto(s, r, CheckCode(id, s.challenges[id])), id, lf, lp)
  {
    var s' := Goto(s, r, CheckCode(id, s.challenges[id]));
    if Busy(s, id) {
      NotTwo(s', id, r, BusyWith(s, id));
    }
    assert Verifying(s'.procs[r], id);
  }

  ghost function BusyWith(s: State, id: nat): (r: nat)
    requires Busy(s, id)
    ensures r in s.procs && Verifying(s.procs[r], id)
  {
    var r :| r in s.procs && Verifying(s.procs[r], id);
    r
  }

  lemma NotTwo(s: State, id: nat, q: nat, r: nat)
    requires Alone(s, id) && q in s.procs && r in s.procs && Verifying(s.procs[q], id) && Verifying(s.procs[r], id)
    ensures q == r
  {
  }

  /** Checking the code and writing the verdict back. */
  lemma VerdictCounted(s: State, r: nat, p: Proc, c: Choice, id: nat, lf: nat, lp: nat)
    requires Counted(s, id, lf, lp) && r in s.procs && s.procs[r] == p && Verifying(p, id) && Alone(s, id)
    ensures Counted(StepChallenging(s, r, p, c), id, lf, lp)
  {
    if p.CheckCode? {
      CodeCounted(s, r, p, c, id, lf, lp);
    } else {
      var s' := StepChallenging(s, r, p, c);
      SameOthers(s, s', r);
      assert Busy(s, id);
      assert id in s.challengeIds && s'.challengeIds == s.challengeIds;
      if p.PassSession? {
        assert Verifying(s'.procs[r], id);
        assert Busy(s', id);
      }
    }
  }

  lemma CodeCounted(s: State, r: nat, p: Proc, c: Choice, id: nat, lf: nat, lp: nat)
    requires Counted(s, id, lf, lp) && r in s.procs && s.procs[r] == p && p.CheckCode? && p.challenge == id
    requires Alone(s, id)
    ensures Counted(StepChallenging(s, r, p, c), id, lf, lp)
  {
    var s' := StepChallenging(s, r, p, c);
    SameOthers(s, s', r);
    assert Busy(s, id);
    assert id in s.challengeIds && s'.challengeIds == s.challengeIds;
    assert Verifying(s'.procs[r], id);
    assert Busy(s', id);
    CheckCountAppend(s.checks, Check(id, p.seen.session, c.ok), id, true);
    CheckCountAppend(s.checks, Check(id, p.seen.session, c.ok), id, false);
  }

  lemma ChallengingCounted(s: State, r: nat, p: Proc, c: Choice, id: nat, lf: nat, lp: nat)
    requires Counted(s, id, lf, lp) && r in s.procs && s.procs[r] == p && Challenging(p) && Alone(s, id)
    requires StepChallenging(s, r, p, c).procs - {r} == s.procs - {r} && Alone(StepChallenging(s, r, p, c), id)
    ensures Counted(StepChallenging(s, r, p, c), id, lf, lp)
  {
    if p.SetChallenge? {
      CreationCounted(s, r, p.user, p.session, c.id, id, lf, lp);
    } else if p.challenge != id {
      OtherChallengeCounted(s, r, p, c, id, lf, lp);
    } else if p.GetChallenge? {
      ReadCounted(s, r, id, lf, lp);
    } else if p.DropChallenge? {
      IrrelevantCounted(s, StepChallenging(s, r, p, c), r, id, lf, lp);
    } else {
      VerdictCounted(s, r, p, c, id, lf, lp);
    }
  }

  lemma ChallengeStepCounted(s: State, r: nat, p: Proc, c: Choice, id: nat, lf: nat, lp: nat)
    requires Inv(s) && Counted(s, id, lf, lp) && Alone(s, id) && r in s.procs && s.procs[r] == p && Challenging(p)
    requires Alone(StepChallenging(s, r, p, c), id)
    ensures Counted(StepChallenging(s, r, p, c), id, lf, lp)
  {
    assert ProcOk(s, s.procs[r]);
    ChallengingHonest(s, r, p, c, 0);
    ChallengingCounted(s, r, p, c, id, lf, lp);
  }

  lemma OtherStepCounted(s: State, r: nat, p: Proc, c: Choice, s': State, id: nat, lf: nat, lp: nat)
    requires Inv(s) && Counted(s, id, lf, lp) && r in s.procs && s.procs[r] == p && !Challenging(p)
    requires s' == StepProc(s, r, p, c)
    ensures Counted(s', id, lf, lp)
  {
    StepHonest(s, r, p, c, 0);
    StepIrrelevant(s, r, p, c, id);
    IrrelevantCounted(s, s', r, id, lf, lp);
  }

  lemma StepCounted(s: State, r: nat, p: Proc, c: Choice, s': State, id: nat, lf: nat, lp: nat)
    requires Inv(s) && Counted(s, id, lf, lp) && Alone(s, id) && r in s.procs && s.procs[r] == p
    requires s' == StepProc(s, r, p, c) && Alone(s', id)
    ensures Counted(s', id, lf, lp)
  {
    if Challenging(p) {
      StepsChallenging(s, r, p, c);
      ChallengeStepCounted(s, r, p, c, id, lf, lp);
    } else {
      OtherStepCounted(s, r, p, c, s', id, lf, lp);
    }
  }

  lemma EnvironmentCounted(s: State, e: Event, id: nat, lf: nat, lp: nat)
    requires Counted(s, id, lf, lp) && (!e.Step? || e.r !in s.procs)
    requires !(e.Abort? && e.r in s.procs && Verifying(s.procs[e.r], id))
    ensures Counted(Apply(s, e), id, lf, lp)
  {
    EnvironmentHonest(s, e, 0);
    EnvironmentIrrelevant(s, e, id);
    if Apply(s, e) != s {
      IrrelevantCounted(s, Apply(s, e), Actor(s, e), id, lf, lp);
    }
  }

  /** A verification that dies: before its code is checked nothing is lost, afterwards one verdict is. */
  lemma AbortCounted(s: State, r: nat, id: nat, lf: nat, lp: nat)
    requires Counted(s, id, lf, lp) && Alone(s, id) && r in s.procs && Verifying(s.procs[r], id)
    ensures Counted(Finish(s, r), id,
                    if CutsShort(s, Abort(r), id, false) then lf + 1 else lf,
                    if CutsShort(s, Abort(r), id, true) then lp + 1 else lp)
  {
    var s' := Finish(s, r);
    SameOthers(s, s', r);
    assert Busy(s, id);
  }

  lemma EventCounted(s: State, e: Event, id: nat, lf: nat, lp: nat)
    requires Inv(s) && Counted(s, id, lf, lp) && Alone(s, id) && Alone(Apply(s, e), id)
    ensures Counted(Apply(s, e), id,
                    if CutsShort(s, e, id, false) then lf + 1 else lf,
                    if CutsShort(s, e, id, true) then lp + 1 else lp)
  {
    if e.Step? && e.r in s.procs {
      StepCounted(s, e.r, s.procs[e.r], e.c, Apply(s, e), id, lf, lp);
    } else if e.Abort? && e.r in s.procs && Verifying(s.procs[e.r], id) {
      AbortCounted(s, e.r, id, lf, lp);
    } else {
      EnvironmentCounted(s, e, id, lf, lp);
    }
  }

  lemma ShorterOneAtATime(es: seq<Event>, id: nat)
    requires OneAtATime(es, id) && |es| > 0
    ensures var es' := es[..|es| - 1]; OneAtATime(es', id) && Alone(Run(Init, es'), id) && Alone(Run(Init, es), id)
  {
    var es' := es[..|es| - 1];
    forall n | 0 <= n <= |es'|
      ensures Alone(Run(Init, es'[..n]), id)
    {
      assert es'[..n] == es[..n];
    }
    assert es[..|es|] == es;
  }

  lemma CutShortLast(es: seq<Event>, id: nat, passed: bool)
    requires |es| > 0
    ensures var es', e := es[..|es| - 1], es[|es| - 1];
      CutShort(es, id, passed) ==
      if CutsShort(Run(Init, es'), e, id, passed) then CutShort(es', id, passed) + 1 else CutShort(es', id, passed)
  {
  }

  lemma NextCounted(s: State, e: Event, s': State, id: nat, lf: nat, lp: nat, lf': nat, lp': nat)
    requires Inv(s) && Counted(s, id, lf, lp) && Alone(s, id) && s' == Apply(s, e) && Alone(s', id)
    requires lf' == if CutsShort(s, e, id, false) then lf + 1 else lf
    requires lp' == if CutsShort(s, e, id, true) then lp + 1 else lp
    ensures Counted(s', id, lf', lp')
  {
    EventCounted(s, e, id, lf, lp);
  }

  lemma {:induction false} ChecksCounted(es: seq<Event>, id: nat)
    requires OneAtATime(es, id)
    ensures Counted(Run(Init, es), id, CutShort(es, id, false), CutShort(es, id, true))
    decreases |es|
  {
    if |es| == 0 {
      RunNone(Init);
    } else {
      var es', e := es[..|es| - 1], es[|es| - 1];
      ShorterOneAtATime(es, id);
      ChecksCounted(es', id);
      ReachableInv(es');
      RunLast(Init, es);
      CutShortLast(es, id, false);
      CutShortLast(es, id, true);
      NextCounted(Run(Init, es'), e, Run(Init, es), id, CutShort(es', id, false), CutShort(es', id, true),
                  CutShort(es, id, false), CutShort(es, id, true));
    }
  }

  /**
   With one verification of a challenge at a time, over any run and with crashes anywhere: at most
   three codes are checked and at most one passes, not counting those whose verification was cut short.
   */
  lemma AtMostThreeChecks(es: seq<Event>, id: nat)
    requires OneAtATime(es, id)
    ensures var checks := Run(Init, es).checks; var lostFails := CutShort(es, id, false);
      var lostPasses := CutShort(es, id, true);
      && CheckCount(checks, id, false) + CheckCount(checks, id, true) <= 3 + lostFails + lostPasses
      && CheckCount(checks, id, true) <= 1 + lostPasses
  {
    ChecksCounted(es, id);
  }

  // Why both conditions are needed

  function Verdict(passed: bool): Choice { Choice(Raw(0), 0, passed, {}) }

  function Repeated(c: Check, n: nat): seq<Check> { if n == 0 then [] else Repeated(c, n - 1) + [c] }

  lemma {:induction false} RepeatedCount(checks: seq<Check>, c: Check, n: nat)
    ensures CheckCount(checks + Repeated(c, n), c.challenge, c.passed) == CheckCount(checks, c.challenge, c.passed) + n
  {
    if n == 0 {
      assert checks + [] == checks;
    } else {
      RepeatedCount(checks, c, n - 1);
      AppendLast(checks, Repeated(c, n - 1), c);
      CheckCountAppend(checks + Repeated(c, n - 1), c, c.challenge, c.passed);
    }
  }

  lemma Arriving(s: State, r: nat, p: Proc)
    requires r !in s.procs && Initial(p) && ReadsPassword(s, p)
    ensures Apply(s, Arrive(r, p)) == Goto(s, r, p)
  {
  }

  lemma ReadsChallenge(s: State, r: nat, id: nat, c: Choice)
    requires r in s.procs && s.procs[r] == GetChallenge(id) && OpenChallenge(s, id)
    ensures Apply(s, Step(r, c)) == Goto(s, r, CheckCode(id, s.challenges[id]))
  {
    TakesChallenging(s, r, GetChallenge(id), c);
  }

  lemma ChecksCode(s: State, r: nat, id: nat, seen: Challenge, passed: bool)
    requires r in s.procs && s.procs[r] == CheckCode(id, seen)
    ensures Apply(s, Step(r, Verdict(passed))) == DoCheckCode(s, r, id, seen, passed)
  {
    TakesChallenging(s, r, CheckCode(id, seen), Verdict(passed));
  }

  /** For every user and id, a state with an open challenge is reachable, with no request in flight. */
  lemma OpenChallengeIsReachable(user: nat, id: nat) returns (s: State)
    ensures Reachable(s) && OpenChallenge(s, id) && s.challenges[id].user == user && s.procs == map[]
  {
    RunNone(Init);
    ReachableIsRun(Init);
    assert Run(Init, []) == Init;
    var c := Choice(Raw(0), id, false, {});
    var p := InsertSession(user, None, SecondFactor(0), "");
    var s1 := Goto(Init, 0, p);
    ReachNext(Init, Arrive(0, p));
    TakesIssuing(s1, 0, p, c);
    ReachNext(s1, Step(0, c));
    var s2 := DoInsertSession(s1, 0, user, None, SecondFactor(0), "", false);
    TakesChallenging(s2, 0, SetChallenge(user, 0), c);
    ReachNext(s2, Step(0, c));
    s := DoSetChallenge(s2, 0, user, 0, id);
  }

  /** A request that reads the challenge, checks a wrong code and dies before it writes the attempt back. */
  function Crash(id: nat, r: nat): seq<Event> {
    [Arrive(r, GetChallenge(id)), Step(r, Verdict(false)), Step(r, Verdict(false)), Abort(r)]
  }

  function Crashes(id: nat, r: nat, n: nat): seq<Event> {
    if n == 0 then [] else Crashes(id, r, n - 1) + Crash(id, r)
  }

  /** A new request that reads the challenge. */
  function Reader(id: nat, r: nat, c: Choice): seq<Event> { [Arrive(r, GetChallenge(id)), Step(r, c)] }

  lemma Joins(s: State, id: nat, r: nat, c: Choice)
    requires OpenChallenge(s, id) && r !in s.procs
    ensures Run(s, Reader(id, r, c)) == Goto(s, r, CheckCode(id, s.challenges[id]))
  {
    var m := Goto(s, r, GetChallenge(id));
    RunNone(s);
    Arriving(s, r, GetChallenge(id));
    RunThen(s, [], s, Arrive(r, GetChallenge(id)), m);
    ReadsChallenge(m, r, id, c);
    RunThen(s, [] + [Arrive(r, GetChallenge(id))], m, Step(r, c), Goto(m, r, CheckCode(id, s.challenges[id])));
    assert [] + [Arrive(r, GetChallenge(id))] + [Step(r, c)] == [Arrive(r, GetChallenge(id)), Step(r, c)];
    assert Goto(m, r, CheckCode(id, s.challenges[id])).procs == s.procs[r := CheckCode(id, s.challenges[id])];
  }

  lemma Dying(s: State, r: nat)
    ensures Apply(s, Abort(r)) == Finish(s, r)
  {
  }

  /** The four events of a request that checks a wrong code and writes the attempt back. */
  function WrongCode(id: nat, r: nat): seq<Event> {
    Reader(id, r, Verdict(false)) + [Step(r, Verdict(false))] + [Step(r, Verdict(false))]
  }

  function Failed(ch: Challenge): Challenge { Challenge(ch.user, ch.session, ch.attempts + 1) }

  /** What a wrong code leaves: one attempt more, and one code checked. */
  lemma WrongCodeCounts(s: State, id: nat, r: nat)
    requires OpenChallenge(s, id) && r !in s.procs
    ensures Run(s, WrongCode(id, r)) ==
      s.(checks := s.checks + [Check(id, s.challenges[id].session, false)],
         challenges := s.challenges[id := Failed(s.challenges[id])])
  {
    var seen := s.challenges[id];
    var checked := Reader(id, r, Verdict(false)) + [Step(r, Verdict(false))];
    ChecksWrong(s, id, r);
    TakesChallenging(Run(s, checked), r, SetAttempts(id, seen), Verdict(false));
    RunThen(s, checked, Run(s, checked), Step(r, Verdict(false)), DoSetAttempts(Run(s, checked), r, id, seen));
    assert s.procs[r := SetAttempts(id, seen)] - {r} == s.procs;
  }

  /** A request that reads the challenge and has a wrong code checked. */
  lemma ChecksWrong(s: State, id: nat, r: nat)
    requires OpenChallenge(s, id) && r !in s.procs
    ensures Run(s, Reader(id, r, Verdict(false)) + [Step(r, Verdict(false))]) ==
      s.(checks := s.checks + [Check(id, s.challenges[id].session, false)],
         procs := s.procs[r := SetAttempts(id, s.challenges[id])])
  {
    var seen, joined := s.challenges[id], Reader(id, r, Verdict(false));
    var m := Goto(s, r, CheckCode(id, seen));
    Joins(s, id, r, Verdict(false));
    ChecksCode(m, r, id, seen, false);
    RunThen(s, joined, m, Step(r, Verdict(false)), DoCheckCode(m, r, id, seen, false));
    CheckedWrong(s, r, id, seen);
  }

  lemma CheckedWrong(s: State, r: nat, id: nat, seen: Challenge)
    ensures DoCheckCode(Goto(s, r, CheckCode(id, seen)), r, id, seen, false) ==
      s.(checks := s.checks + [Check(id, seen.session, false)], procs := s.procs[r := SetAttempts(id, seen)])
  {
    assert s.procs[r := CheckCode(id, seen)][r := SetAttempts(id, seen)] == s.procs[r := SetAttempts(id, seen)];
  }

  function WrongCodes(id: nat, r: nat, n: nat): seq<Event> {
    if n == 0 then [] else WrongCodes(id, r, n - 1) + WrongCode(id, r)
  }

  lemma {:induction false} WrongCodesCount(s: State, id: nat, r: nat, n: nat)
    requires id in s.challenges && s.challenges[id].attempts == 0 && n <= 3 && r !in s.procs
    ensures Run(s, WrongCodes(id, r, n)) == Tried(s, id, n)
  {
    if n == 0 {
      RunNone(s);
      assert s.challenges[id := s.challenges[id].(attempts := 0)] == s.challenges;
      assert s.checks + [] == s.checks;
    } else {
      WrongCodesCount(s, id, r, n - 1);
      var m := Tried(s, id, n - 1);
      WrongCodeCounts(m, id, r);
      TriedOnceMore(s, id, n);
      RunMore(s, WrongCodes(id, r, n - 1), m, WrongCode(id, r), Run(m, WrongCode(id, r)));
    }
  }

  /** After n wrong codes for a new challenge. */
  function Tried(s: State, id: nat, n: nat): State
    requires id in s.challenges
  {
    s.(checks := s.checks + Repeated(Check(id, s.challenges[id].session, false), n),
       challenges := s.challenges[id := s.challenges[id].(attempts := n)])
  }

  lemma TriedOnceMore(s: State, id: nat, n: nat)
    requires id in s.challenges && n > 0
    ensures var m := Tried(s, id, n - 1);
      m.(checks := m.checks + [Check(id, m.challenges[id].session, false)],
         challenges := m.challenges[id := Failed(m.challenges[id])]) == Tried(s, id, n)
  {
    var m, c := Tried(s, id, n - 1), Check(id, s.challenges[id].session, false);
    AppendLast(s.checks, Repeated(c, n - 1), c);
    assert m.challenges[id := Failed(m.challenges[id])] == s.challenges[id := s.challenges[id].(attempts := n)];
  }

  /**
   The bound is reached: a new challenge has three codes checked, one request after the other, and the
   request after the third wrong one finds it used up and deletes it.
   */
  lemma ThreeCodesAreChecked(s: State, id: nat, r: nat)
    requires id in s.challenges && s.challenges[id].attempts == 0 && r !in s.procs
    ensures var s3 := Run(s, WrongCodes(id, r, 3));
      && s3.checks == s.checks + Repeated(Check(id, s.challenges[id].session, false), 3)
      && s3.procs == s.procs && id in s3.challenges
      && Run(s3, UsedUp(id, r)) == s3.(challenges := s3.challenges - {id})
  {
    WrongCodesCount(s, id, r, 3);
    UsedUpIsDropped(Run(s, WrongCodes(id, r, 3)), id, r);
  }

  /** A request that finds the challenge used up. */
  function UsedUp(id: nat, r: nat): seq<Event> {
    [] + [Arrive(r, GetChallenge(id))] + [Step(r, Verdict(true))] + [Step(r, Verdict(true))]
  }

  lemma UsedUpIsDropped(s: State, id: nat, r: nat)
    requires id in s.challenges && s.challenges[id].attempts == 3 && r !in s.procs
    ensures Run(s, UsedUp(id, r)) == s.(challenges := s.challenges - {id})
  {
    var m := Goto(s, r, GetChallenge(id));
    RunNone(s);
    Arriving(s, r, GetChallenge(id));
    RunThen(s, [], s, Arrive(r, GetChallenge(id)), m);
    TakesChallenging(m, r, GetChallenge(id), Verdict(true));
    var m' := Goto(m, r, DropChallenge(id));
    RunThen(s, [] + [Arrive(r, GetChallenge(id))], m, Step(r, Verdict(true)), m');
    TakesChallenging(m', r, DropChallenge(id), Verdict(true));
    RunThen(s, [] + [Arrive(r, GetChallenge(id))] + [Step(r, Verdict(true))], m', Step(r, Verdict(true)),
            DoDropChallenge(m', r, id));
    assert DoDropChallenge(m', r, id).procs == s.procs;
  }

  lemma OneCrash(s: State, id: nat, r: nat)
    requires OpenChallenge(s, id) && r !in s.procs
    ensures Run(s, Crash(id, r)) == s.(checks := s.checks + [Check(id, s.challenges[id].session, false)])
  {
    var checked := Reader(id, r, Verdict(false)) + [Step(r, Verdict(false))];
    ChecksWrong(s, id, r);
    var m := Run(s, checked);
    Dying(m, r);
    RunThen(s, checked, m, Abort(r), Finish(m, r));
    assert checked + [Abort(r)] == Crash(id, r);
    assert s.procs[r := SetAttempts(id, s.challenges[id])] - {r} == s.procs;
  }

  /** Crashes are not remembered: one request at a time checks any number of codes against an open challenge. */
  lemma {:induction false} CrashesUnbounded(s: State, id: nat, r: nat, n: nat)
    requires OpenChallenge(s, id) && r !in s.procs
    ensures Run(s, Crashes(id, r, n)) ==
      s.(checks := s.checks + Repeated(Check(id, s.challenges[id].session, false), n))
    ensures CheckCount(Run(s, Crashes(id, r, n)).checks, id, false) == CheckCount(s.checks, id, false) + n
  {
    var c := Check(id, s.challenges[id].session, false);
    RepeatedCount(s.checks, c, n);
    if n == 0 {
      RunNone(s);
      assert s.checks + [] == s.checks;
    } else {
      CrashesUnbounded(s, id, r, n - 1);
      RunConcat(s, Crashes(id, r, n - 1), Crash(id, r));
      OneCrash(Run(s, Crashes(id, r, n - 1)), id, r);
      AppendLast(s.checks, Repeated(c, n - 1), c);
    }
  }

  predicate Unused(s: State, base: nat, n: nat) { forall i :: base <= i < base + n ==> i !in s.procs }

  /** The state in which they all hold the challenge. */
  function Held(s: State, id: nat, base: nat, n: nat): State
    requires id in s.challenges
  {
    if n == 0 then s else Goto(Held(s, id, base, n - 1), base + n - 1, CheckCode(id, s.challenges[id]))
  }

  lemma {:induction false} HeldByAll(s: State, id: nat, base: nat, n: nat)
    requires id in s.challenges
    ensures var s' := Held(s, id, base, n);
      && s'.challenges == s.challenges && s'.checks == s.checks
      && (forall i :: base <= i < base + n ==> i in s'.procs && s'.procs[i] == CheckCode(id, s.challenges[id]))
      && (forall i :: i >= base + n ==> (i in s'.procs <==> i in s.procs))
  {
    if n > 0 {
      HeldByAll(s, id, base, n - 1);
    }
  }

  lemma MayJoin(s: State, id: nat, base: nat, n: nat)
    requires n > 0 && OpenChallenge(s, id) && Unused(s, base, n)
    ensures var m := Held(s, id, base, n - 1);
      OpenChallenge(m, id) && m.challenges[id] == s.challenges[id] && base + n - 1 !in m.procs
  {
    HeldByAll(s, id, base, n - 1);
  }

  /** The events are requests' arrivals and steps only: nobody crashes. */
  predicate NoCrash(es: seq<Event>) { forall i :: 0 <= i < |es| ==> es[i].Arrive? || es[i].Step? }

  lemma {:induction false} AllRead(s: State, id: nat, base: nat, n: nat) returns (es: seq<Event>)
    requires OpenChallenge(s, id) && Unused(s, base, n)
    ensures Run(s, es) == Held(s, id, base, n) && NoCrash(es)
  {
    if n == 0 {
      RunNone(s);
      es := [];
    } else {
      es := AllRead(s, id, base, n - 1);
      es := OneMoreReads(s, id, base, n, es);
    }
  }

  lemma OneMoreReads(s: State, id: nat, base: nat, n: nat, es: seq<Event>) returns (es': seq<Event>)
    requires n > 0 && OpenChallenge(s, id) && Unused(s, base, n)
    requires Run(s, es) == Held(s, id, base, n - 1) && NoCrash(es)
    ensures Run(s, es') == Held(s, id, base, n) && NoCrash(es')
  {
    var m, r := Held(s, id, base, n - 1), base + n - 1;
    var reader := Reader(id, r, Verdict(true));
    MayJoin(s, id, base, n);
    Joins(m, id, r, Verdict(true));
    RunMore(s, es, m, reader, Held(s, id, base, n));
    es' := es + reader;
  }

  /** Of s' against s: n checks more, and the later requests where they were. */
  ghost predicate HaveChecked(s: State, s': State, c: Check, base: nat, n: nat) {
    && s'.checks == s.checks + Repeated(c, n)
    && (forall i :: i >= base + n && i in s.procs ==> i in s'.procs && s'.procs[i] == s.procs[i])
  }

  lemma {:induction false} AllCheck(s: State, id: nat, seen: Challenge, base: nat, n: nat, passed: bool)
    returns (es: seq<Event>)
    requires forall i :: base <= i < base + n ==> i in s.procs && s.procs[i] == CheckCode(id, seen)
    ensures HaveChecked(s, Run(s, es), Check(id, seen.session, passed), base, n) && NoCrash(es)
  {
    if n == 0 {
      RunNone(s);
      assert s.checks + [] == s.checks;
      es := [];
    } else {
      es := AllCheck(s, id, seen, base, n - 1, passed);
      var m, e := Run(s, es), Step(base + n - 1, Verdict(passed));
      OneMoreChecks(s, m, id, seen, base, n, passed);
      RunThen(s, es, m, e, DoCheckCode(m, base + n - 1, id, seen, passed));
      es := es + [e];
    }
  }

  lemma OneMoreChecks(s: State, m: State, id: nat, seen: Challenge, base: nat, n: nat, passed: bool)
    requires n > 0 && base + n - 1 in s.procs && s.procs[base + n - 1] == CheckCode(id, seen)
    requires HaveChecked(s, m, Check(id, seen.session, passed), base, n - 1)
    ensures Apply(m, Step(base + n - 1, Verdict(passed))) == DoCheckCode(m, base + n - 1, id, seen, passed)
    ensures HaveChecked(s, DoCheckCode(m, base + n - 1, id, seen, passed), Check(id, seen.session, passed), base, n)
  {
    var c := Check(id, seen.session, passed);
    ChecksCode(m, base + n - 1, id, seen, passed);
    AppendLast(s.checks, Repeated(c, n - 1), c);
  }

  /**
   Verifications that overlap have no bound either: without any crash, any number of requests that
   all read an open challenge all have their codes checked, and all of them may pass.
   */
  lemma OverlappingChecksUnbounded(s: State, id: nat, base: nat, n: nat, passed: bool) returns (es: seq<Event>)
    requires OpenChallenge(s, id) && Unused(s, base, n)
    ensures NoCrash(es) && CheckCount(Run(s, es).checks, id, passed) == CheckCount(s.checks, id, passed) + n
  {
    var seen, held := s.challenges[id], Held(s, id, base, n);
    var reading := AllRead(s, id, base, n);
    HeldByAll(s, id, base, n);
    var checking := AllCheck(held, id, seen, base, n, passed);
    RunMore(s, reading, held, checking, Run(held, checking));
    RepeatedCount(s.checks, Check(id, seen.session, passed), n);
    es := reading + checking;
  }
}
