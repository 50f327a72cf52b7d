/**
 The lockout counter of one account. A login reads the row, checks the password against what it
 read, and then updates the row in one or two statements; several logins may overlap.
 */
module Lockout {
  import opened Basics

  datatype Status = Enabled | Unverified | Locked | Disabled

  datatype Account = Account(failures: nat, lockedUntil: Option<int>, status: Status)

  /** MAX_FAILED_LOGINS, and LOCKOUT_MINUTES in milliseconds. */
  datatype Policy = Policy(max: nat, lockout: nat)

  /** The status gates of login. */
  predicate MayTry(a: Account, t: int) {
    a.status != Disabled && !(a.lockedUntil.Some? && a.lockedUntil.value > t)
  }

  /** The gates and the one after the password: the e-mail address must be verified. */
  predicate MayLogIn(a: Account, t: int) { MayTry(a, t) && a.status != Unverified }

  function Failed(a: Account): Account { a.(failures := a.failures + 1) }

  predicate Moves(a: Account, until: int) { a.lockedUntil.None? || a.lockedUntil.value < until }

  function LockedTill(a: Account, until: int): Account {
    if Moves(a, until)
    then a.(lockedUntil := Some(until), status := Locked)
    else a
  }

  function Cleared(a: Account): Account {
    Account(0, None, if a.status == Locked then Enabled else a.status)
  }

  function Rehashed(a: Account): Account { a.(failures := 0, lockedUntil := None) }

  /** An administrator enables or disables the account, whatever its status was. */
  function Set(a: Account, on: bool): Account { a.(status := if on then Enabled else Disabled) }

  function Verified(a: Account): Account { if a.status == Unverified then a.(status := Enabled) else a }

  /** A login past the gates: about to compare the password, to record its failure, or to lock the account. */
  datatype Login = Checking(seen: Account) | Failing(seen: Account) | Locking

  /**
   Histories: wrong passwords evaluated; those whose login died before the failure was recorded, or
   before it locked; the locks written; and the times an administrator set the status.
   */
  datatype State = State(
    account: Account, logins: map<nat, Login>, wrong: nat, unrecorded: nat, unlocked: nat, locks: nat, sets: nat)

  datatype Event =
    | Begin(r: nat, t: int)
    | Wrong(r: nat, t: int)
    | Record(r: nat, t: int)
    | Right(r: nat, t: int)
    | Lock(r: nat, t: int)
    | Abort(r: nat, t: int)
    | Verify(t: int)
    | SetStatus(on: bool, t: int)
    | Clear(t: int)
    | Rehash(t: int)

  function Apply(s: State, e: Event, p: Policy): State {
    match e
    case Begin(r, t) =>
      if r !in s.logins && MayTry(s.account, t) then s.(logins := s.logins[r := Checking(s.account)]) else s
    case Wrong(r, _) =>
      if r in s.logins && s.logins[r].Checking?
      then s.(wrong := s.wrong + 1, logins := s.logins[r := Failing(s.logins[r].seen)])
      else s
    case Record(r, _) =>
      if r in s.logins && s.logins[r].Failing? then
        s.(account := Failed(s.account),
           logins := if s.logins[r].seen.failures + 1 >= p.max then s.logins[r := Locking] else s.logins - {r})
      else s
    case Right(r, _) => if r in s.logins && s.logins[r].Checking? then s.(logins := s.logins - {r}) else s
    case Lock(r, t) =>
      if r in s.logins && s.logins[r].Locking? then
        s.(account := LockedTill(s.account, t + p.lockout), logins := s.logins - {r},
           locks := if Moves(s.account, t + p.lockout) then s.locks + 1 else s.locks)
      else s
    case Abort(r, _) =>
      if r in s.logins then
        s.(logins := s.logins - {r},
           unrecorded := if s.logins[r].Failing? then s.unrecorded + 1 else s.unrecorded,
           unlocked := if s.logins[r].Locking? then s.unlocked + 1 else s.unlocked)
      else s
    case Verify(_) => s.(account := Verified(s.account))
    case SetStatus(on, _) => s.(account := Set(s.account, on), sets := s.sets + 1)
    case Clear(_) => s.(account := Cleared(s.account))
    case Rehash(_) => s.(account := Rehashed(s.account))
  }

  function Run(s: State, es: seq<Event>, p: Policy): State
    decreases |es|
  {
    if es == [] then s else Run(Apply(s, es[0], p), es[1..], p)
  }

  lemma {:induction false} RunConcat(s: State, xs: seq<Event>, ys: seq<Event>, p: Policy)
    ensures Run(s, xs + ys, p) == Run(Run(s, xs, p), ys, p)
    decreases |xs|
  {
    if xs == [] {
      assert xs + ys == ys;
    } else {
      assert (xs + ys)[1..] == xs[1..] + ys;
      RunConcat(Apply(s, xs[0], p), xs[1..], ys, p);
    }
  }

  /** Events happen in the order of their times, between from and until. */
  predicate Timed(es: seq<Event>, from: int, until: int) {
    from <= until && (es == [] || (from <= es[0].t && Timed(es[1..], es[0].t, until)))
  }

  /** At most m logins in flight at every moment, and nothing clears the counter. */
  predicate Few(s: State, es: seq<Event>, p: Policy, m: nat)
    decreases |es|
  {
    |s.logins.Keys| <= m &&
    (es == [] || (!es[0].Clear? && !es[0].Rehash? && Few(Apply(s, es[0], p), es[1..], p, m)))
  }

  function Fresh(status: Status): State { State(Account(0, None, status), map[], 0, 0, 0, 0, 0) }

  /** Only wrong passwords are tried, by requests 0 to m - 1. */
  predicate Tries(es: seq<Event>, m: nat) {
    forall i :: 0 <= i < |es| ==>
      (es[i].Begin? && es[i].r < m) || es[i].Wrong? || es[i].Record? || es[i].Lock?
  }

  lemma {:induction false} Below(a: set<nat>, m: nat)
    requires forall r :: r in a ==> r < m
    ensures |a| <= m
  {
    if m > 0 {
      Below(a - {m - 1}, m - 1);
      assert a <= (a - {m - 1}) + {m - 1};
      if m - 1 in a {
        assert a == (a - {m - 1}) + {m - 1};
      } else {
        assert a == a - {m - 1};
      }
    } else {
      assert a == {};
    }
  }

  lemma {:induction false} FewTries(s: State, es: seq<Event>, p: Policy, m: nat)
    requires Tries(es, m) && forall r :: r in s.logins ==> r < m
    ensures Few(s, es, p, m)
    decreases |es|
  {
    Below(s.logins.Keys, m);
    if es != [] {
      assert forall i :: 0 <= i < |es| - 1 ==> es[1..][i] == es[i + 1];
      FewTries(Apply(s, es[0], p), es[1..], p, m);
    }
  }

  // Wrong passwords tried one at a time

  function Attempt(t: int): seq<Event> { [Begin(0, t), Wrong(0, t), Record(0, t), Lock(0, t)] }

  predicate Idle(s: State, p: Policy, wrong: nat, freeAt: int) {
    && s.logins == map[] && s.unrecorded == 0 && s.unlocked == 0 && s.wrong == wrong && s.account.failures == wrong
    && s.account.status != Disabled
    && (s.account.lockedUntil.Some? ==> s.account.lockedUntil.value <= freeAt)
    && (wrong < p.max ==> s.account.lockedUntil.None?)
    && (wrong >= p.max ==> s.account.status == Locked && s.locks > 0)
  }

  lemma AttemptCounts(s: State, p: Policy, wrong: nat, t: int)
    requires Idle(s, p, wrong, t)
    ensures Idle(Run(s, Attempt(t), p), p, wrong + 1, if wrong + 1 >= p.max then t + p.lockout else t)
  {
    var s1 := Apply(s, Begin(0, t), p);
    var s2 := Apply(s1, Wrong(0, t), p);
    var s3 := Apply(s2, Record(0, t), p);
    var s4 := Apply(s3, Lock(0, t), p);
    var three, two := [Wrong(0, t), Record(0, t), Lock(0, t)], [Record(0, t), Lock(0, t)];
    assert Attempt(t)[1..] == three && three[1..] == two && two[1..] == [Lock(0, t)];
    assert Run(s3, [Lock(0, t)], p) == Run(s4, [], p) == s4;
    assert Run(s2, two, p) == Run(s3, two[1..], p);
    assert Run(s1, three, p) == Run(s2, three[1..], p);
  }

  lemma {:induction false} TimedConcat(xs: seq<Event>, ys: seq<Event>, from: int, middle: int, until: int)
    requires Timed(xs, from, middle) && Timed(ys, middle, until)
    ensures Timed(xs + ys, from, until)
    decreases |xs|
  {
    if xs == [] {
      assert xs + ys == ys;
    } else {
      assert (xs + ys)[1..] == xs[1..] + ys;
      TimedConcat(xs[1..], ys, xs[0].t, middle, until);
    }
  }

  /** k wrong passwords, each tried as soon as the account is not locked. */
  function Patient(k: nat, t: int, p: Policy): seq<Event> {
    if k == 0 then [] else Patient(k - 1, t, p) + Attempt(NextTry(k - 1, t, p))
  }

  /** When k wrong passwords have been tried and the account is free again. */
  function NextTry(k: nat, t: int, p: Policy): int {
    if k < p.max then t else t + (k - p.max + 1) * p.lockout
  }

  lemma {:induction false} PatientCounts(status: Status, k: nat, t: int, p: Policy)
    requires p.max >= 1 && status != Disabled
    ensures Idle(Run(Fresh(status), Patient(k, t, p), p), p, k, NextTry(k, t, p))
    ensures k > 0 ==> Timed(Patient(k, t, p), t, NextTry(k - 1, t, p))
  {
    if k > 0 {
      var start, before, at := Fresh(status), Patient(k - 1, t, p), NextTry(k - 1, t, p);
      PatientCounts(status, k - 1, t, p);
      RunConcat(start, before, Attempt(at), p);
      AttemptCounts(Run(start, before, p), p, k - 1, at);
      OneLockoutMore(k, t, p);
      AttemptTimed(at);
      if k == 1 {
        assert before + Attempt(at) == Attempt(at);
      } else {
        OneLockoutMore(k - 1, t, p);
        assert Timed(Attempt(at), NextTry(k - 2, t, p), at);
        TimedConcat(before, Attempt(at), t, NextTry(k - 2, t, p), at);
      }
    }
  }

  lemma {:induction false} PatientTries(k: nat, t: int, p: Policy)
    ensures Tries(Patient(k, t, p), 1)
  {
    if k > 0 {
      PatientTries(k - 1, t, p);
    }
  }

  lemma OneLockoutMore(k: nat, t: int, p: Policy)
    requires k > 0 && p.max >= 1
    ensures NextTry(k, t, p) == NextTry(k - 1, t, p) + if k >= p.max then p.lockout else 0
  {
    if k >= p.max {
      assert (k - p.max + 1) * p.lockout == (k - p.max) * p.lockout + p.lockout;
    }
  }

  lemma AttemptTimed(t: int)
    ensures Timed(Attempt(t), t, t)
  {
    var three, two := [Wrong(0, t), Record(0, t), Lock(0, t)], [Record(0, t), Lock(0, t)];
    assert Attempt(t)[1..] == three && three[1..] == two && two[1..] == [Lock(0, t)];
    assert Timed([Lock(0, t)], t, t);
    assert Timed(two, t, t);
  }

  // Overlapping logins

  /** n logins of one account that all pass the gates before any of them records its failure. */
  function Begins(n: nat, t: int): seq<Event> { seq(n, i requires 0 <= i < n => Begin(i, t)) }

  function Wrongs(n: nat, t: int): seq<Event> { seq(n, i requires 0 <= i < n => Wrong(i, t)) }

  function Stage(r: nat, mid: nat, x: Login, y: Login): Login { if r < mid then x else y }

  /** The logins from to until - 1, of which those before mid are at x and the others at y. */
  function Wave(from: nat, mid: nat, until: nat, x: Login, y: Login): map<nat, Login> {
    map r: nat | from <= r < until :: Stage(r, mid, x, y)
  }

  lemma {:induction false} AllBegin(s: State, n: nat, t: int, p: Policy)
    requires s.logins == map[] && MayTry(s.account, t)
    ensures Run(s, Begins(n, t), p) == s.(logins := Wave(0, n, n, Checking(s.account), Checking(s.account)))
  {
    var l := Checking(s.account);
    if n == 0 {
      assert Wave(0, n, n, l, l) == map[];
    } else {
      AllBegin(s, n - 1, t, p);
      assert Begins(n, t) == Begins(n - 1, t) + [Begin(n - 1, t)];
      RunConcat(s, Begins(n - 1, t), [Begin(n - 1, t)], p);
      assert Wave(0, n, n, l, l) == Wave(0, n - 1, n - 1, l, l)[n - 1 := l];
    }
  }

  lemma {:induction false} AllWrong(s: State, a: Account, n: nat, m: nat, t: int, p: Policy)
    requires n <= m && s.logins == Wave(0, m, m, Checking(a), Checking(a))
    ensures Run(s, Wrongs(n, t), p) == s.(wrong := s.wrong + n, logins := Wave(0, n, m, Failing(a), Checking(a)))
    decreases n
  {
    if n == 0 {
      assert s.logins == Wave(0, n, m, Failing(a), Checking(a));
    } else {
      AllWrong(s, a, n - 1, m, t, p);
      assert Wrongs(n, t) == Wrongs(n - 1, t) + [Wrong(n - 1, t)];
      RunConcat(s, Wrongs(n - 1, t), [Wrong(n - 1, t)], p);
      assert Wave(0, n, m, Failing(a), Checking(a)) == Wave(0, n - 1, m, Failing(a), Checking(a))[n - 1 := Failing(a)];
    }
  }

  lemma {:induction false} SameTime(es: seq<Event>, t: int)
    requires forall i :: 0 <= i < |es| ==> es[i].t == t
    ensures Timed(es, t, t)
  {
    if es != [] {
      assert forall i :: 0 <= i < |es| - 1 ==> es[1..][i] == es[i + 1];
      SameTime(es[1..], t);
    }
  }

  /**
   Without a limit on how many logins overlap there is no bound: any number of wrong passwords is
   evaluated in no time.
   */
  lemma OverlappingLoginsUnbounded(status: Status, n: nat, t: int, p: Policy)
    requires status != Disabled
    ensures Timed(Begins(n, t) + Wrongs(n, t), t, t)
    ensures Run(Fresh(status), Begins(n, t) + Wrongs(n, t), p).wrong == n
  {
    SameTime(Begins(n, t) + Wrongs(n, t), t);
    AllBegin(Fresh(status), n, t, p);
    RunConcat(Fresh(status), Begins(n, t), Wrongs(n, t), p);
    AllWrong(Run(Fresh(status), Begins(n, t), p), Fresh(status).account, n, n, t, p);
  }

  // Clearing the counter

  /** The histories decide nothing. */
  lemma {:induction false} HistoriesIdle(s: State, s': State, es: seq<Event>, p: Policy)
    requires s'.account == s.account && s'.logins == s.logins
    ensures Run(s', es, p).account == Run(s, es, p).account && Run(s', es, p).logins == Run(s, es, p).logins
    decreases |es|
  {
    if es != [] {
      HistoriesIdle(Apply(s, es[0], p), Apply(s', es[0], p), es[1..], p);
    }
  }

  /**
   A sign-in or a new password gives back all the attempts: fewer than MAX_FAILED_LOGINS wrong passwords
   after it, one at a time, are all counted from zero and lock nothing.
   */
  lemma ClearingStartsOver(s: State, e: Event, k: nat, t: int, p: Policy)
    requires (e.Clear? || e.Rehash?) && s.logins == map[] && s.account.status != Disabled && k < p.max
    ensures var a := Run(Apply(s, e, p), Patient(k, t, p), p).account;
      a.failures == k && a.lockedUntil == None && MayTry(a, t)
  {
    var cleared := Apply(s, e, p);
    PatientCounts(cleared.account.status, k, t, p);
    HistoriesIdle(Fresh(cleared.account.status), cleared, Patient(k, t, p), p);
  }

  // Accounts whose e-mail address was never verified

  predicate NeverVerified(es: seq<Event>) { forall i :: 0 <= i < |es| ==> !es[i].Verify? }

  predicate Untouched(s: State) { s.locks == 0 && s.sets == 0 }

  lemma {:induction false} StatusIsOverwritten(s: State, es: seq<Event>, p: Policy)
    requires NeverVerified(es) && (s.account.status == Unverified <==> Untouched(s))
    ensures Run(s, es, p).account.status == Unverified <==> Untouched(Run(s, es, p))
    decreases |es|
  {
    if es != [] {
      assert forall i :: 0 <= i < |es| - 1 ==> es[1..][i] == es[i + 1];
      StatusIsOverwritten(Apply(s, es[0], p), es[1..], p);
    }
  }

  /**
   An account that starts unverified and is never verified lets a right password in if and only if,
   before the login read it, a lock was written (lockUntil overwrites the status, and clearing the
   lock makes it active) or an administrator set the status, and no status gate is closed then.
   */
  lemma UnverifiedGetsIn(es: seq<Event>, p: Policy, t: int)
    requires NeverVerified(es)
    ensures var s := Run(Fresh(Unverified), es, p);
      MayLogIn(s.account, t) <==> (s.locks > 0 || s.sets > 0) && MayTry(s.account, t)
  {
    StatusIsOverwritten(Fresh(Unverified), es, p);
  }

  /** It happens without an administrator: MAX_FAILED_LOGINS wrong passwords and one lockout later. */
  lemma LockoutLetsUnverifiedIn(p: Policy, t: int)
    requires p.max >= 1
    ensures NeverVerified(Patient(p.max, t, p)) && Run(Fresh(Unverified), Patient(p.max, t, p), p).sets == 0
    ensures MayLogIn(Run(Fresh(Unverified), Patient(p.max, t, p), p).account, t + p.lockout)
  {
    PatientCounts(Unverified, p.max, t, p);
    PatientTries(p.max, t, p);
    NobodySets(Fresh(Unverified), Patient(p.max, t, p), p, 1);
  }

  lemma {:induction false} NobodySets(s: State, es: seq<Event>, p: Policy, m: nat)
    requires Tries(es, m)
    ensures Run(s, es, p).sets == s.sets
    decreases |es|
  {
    if es != [] {
      assert forall i :: 0 <= i < |es| - 1 ==> es[1..][i] == es[i + 1];
      NobodySets(Apply(s, es[0], p), es[1..], p, m);
    }
  }

  // Disabled accounts

  /** No administrator sets the status again. */
  predicate LeftAlone(es: seq<Event>) { forall i :: 0 <= i < |es| ==> !es[i].SetStatus? }

  /** The login has begun and, if its password is wrong, will lock the account. */
  predicate Armed(l: Login, p: Policy) { l.Locking? || l.seen.failures + 1 >= p.max }

  predicate ArmedAt(s: State, r: nat, p: Policy) { r in s.logins && Armed(s.logins[r], p) }

  ghost predicate SomeArmed(s: State, p: Policy) { exists r :: ArmedAt(s, r, p) }

  /** The account lets a login try again in some later state, at some time. */
  ghost predicate ComesBack(s: State, p: Policy) {
    exists es, t :: LeftAlone(es) && MayTry(Run(s, es, p).account, t)
  }

  lemma DisabledStep(s: State, e: Event, p: Policy)
    requires s.account.status == Disabled && !SomeArmed(s, p) && !e.SetStatus?
    ensures Apply(s, e, p).account.status == Disabled && !SomeArmed(Apply(s, e, p), p)
  {
    var s' := Apply(s, e, p);
    if r :| ArmedAt(s', r, p) {
      assert ArmedAt(s, r, p);
    }
    assert !ArmedAt(s, if e.Lock? then e.r else 0, p);
  }

  lemma {:induction false} StaysDisabled(s: State, es: seq<Event>, p: Policy)
    requires s.account.status == Disabled && !SomeArmed(s, p) && LeftAlone(es)
    ensures Run(s, es, p).account.status == Disabled
    decreases |es|
  {
    if es != [] {
      assert forall i :: 0 <= i < |es| - 1 ==> es[1..][i] == es[i + 1];
      DisabledStep(s, es[0], p);
      StaysDisabled(Apply(s, es[0], p), es[1..], p);
    }
  }

  lemma RunFirst(s: State, e: Event, es: seq<Event>, p: Policy)
    ensures Run(s, [e] + es, p) == Run(Apply(s, e, p), es, p)
  {
    assert ([e] + es)[1..] == es;
  }

  /** A time at which a new lock is later than the account's. */
  function LaterTime(a: Account): int { if a.lockedUntil.Some? then a.lockedUntil.value + 1 else 0 }

  /** What an armed login still has to do to lock the account. */
  lemma ArmedLocks(s: State, r: nat, p: Policy) returns (es: seq<Event>)
    requires ArmedAt(s, r, p)
    ensures LeftAlone(es) && MayTry(Run(s, es, p).account, LaterTime(s.account) + p.lockout)
    decreases if s.logins[r].Checking? then 2 else if s.logins[r].Failing? then 1 else 0
  {
    var t := LaterTime(s.account);
    match s.logins[r] {
      case Checking(_) =>
        es := ArmedLocks(Apply(s, Wrong(r, t), p), r, p);
        RunFirst(s, Wrong(r, t), es, p);
        es := [Wrong(r, t)] + es;
      case Failing(_) =>
        es := ArmedLocks(Apply(s, Record(r, t), p), r, p);
        RunFirst(s, Record(r, t), es, p);
        es := [Record(r, t)] + es;
      case Locking =>
        RunFirst(s, Lock(r, t), [], p);
        es := [Lock(r, t)] + [];
    }
  }

  lemma ArmedComesBack(s: State, r: nat, p: Policy)
    requires ArmedAt(s, r, p)
    ensures ComesBack(s, p)
  {
    var es := ArmedLocks(s, r, p);
  }

  /**
   An account that is disabled and left alone by administrators lets logins try again, in some run, if
   and only if a login is in flight that will lock it if its password is wrong: that lock overwrites
   the status, and the lock expires.
   */
  lemma DisabledComesBack(s: State, p: Policy)
    requires s.account.status == Disabled
    ensures ComesBack(s, p) <==> SomeArmed(s, p)
  {
    if SomeArmed(s, p) {
      var r :| ArmedAt(s, r, p);
      ArmedComesBack(s, r, p);
    } else {
      UnarmedStaysOut(s, p);
    }
  }

  lemma UnarmedStaysOut(s: State, p: Policy)
    requires s.account.status == Disabled && !SomeArmed(s, p)
    ensures !ComesBack(s, p)
  {
    forall es, t | LeftAlone(es)
      ensures !MayTry(Run(s, es, p).account, t)
    {
      StaysDisabled(s, es, p);
    }
  }

  /** Such a login can be there, under every policy: it read the row before the account was disabled. */
  lemma DisabledWhileLoggingIn(p: Policy, t: int)
    requires p.max >= 1
    ensures var s := Run(Fresh(Enabled), Patient(p.max - 1, t, p) + [Begin(0, t), SetStatus(false, t)], p);
      s.account.status == Disabled && SomeArmed(s, p)
  {
    PatientCounts(Enabled, p.max - 1, t, p);
    var s0 := Run(Fresh(Enabled), Patient(p.max - 1, t, p), p);
    RunConcat(Fresh(Enabled), Patient(p.max - 1, t, p), [Begin(0, t), SetStatus(false, t)], p);
    var s1 := Apply(s0, Begin(0, t), p);
    var s2 := Apply(s1, SetStatus(false, t), p);
    assert [Begin(0, t), SetStatus(false, t)][1..] == [SetStatus(false, t)];
    assert Run(s1, [SetStatus(false, t)], p) == Run(s2, [], p);
    assert ArmedAt(s2, 0, p);
  }

  // The users table and the login service

  /** The events of other requests. */
  predicate Others(es: seq<Event>, r: nat) {
    forall i :: 0 <= i < |es| ==>
      !(es[i].Begin? || es[i].Wrong? || es[i].Record? || es[i].Right? || es[i].Lock? || es[i].Abort?) || es[i].r != r
  }

  lemma {:induction false} OthersKeepLogin(s: State, es: seq<Event>, r: nat, p: Policy)
    requires Others(es, r) && r in s.logins
    ensures r in Run(s, es, p).logins && Run(s, es, p).logins[r] == s.logins[r]
    decreases |es|
  {
    if es != [] {
      assert forall i :: 0 <= i < |es| - 1 ==> es[1..][i] == es[i + 1];
      OthersKeepLogin(Apply(s, es[0], p), es[1..], r, p);
    }
  }

  /** What the others do while a login hashes the password, before it records a failure and before it locks. */
  datatype Pauses = Pauses(hashing: seq<Event>, recording: seq<Event>, locking: seq<Event>)

  ghost predicate OthersOnly(w: Pauses, r: nat) {
    Others(w.hashing, r) && Others(w.recording, r) && Others(w.locking, r)
  }

  /** When a login reads the row, gets its verdict, and locks. */
  datatype Times = Times(read: int, verdict: int, lock: int)

  /** The statements of one login, between those of the others. */
  function LoginTrace(a: Account, r: nat, correct: bool, at: Times, w: Pauses, p: Policy): seq<Event> {
    if !MayTry(a, at.read) then []
    else
      var checked := [Begin(r, at.read)] + w.hashing;
      if correct then checked + [Right(r, at.verdict)]
      else
        var recorded := checked + [Wrong(r, at.verdict)] + w.recording + [Record(r, at.verdict)];
        if a.failures + 1 < p.max then recorded else recorded + w.locking + [Lock(r, at.lock)]
  }

  datatype Outcome = Refused | BadPassword | NotVerified | Accepted

  /** The row of one user and the logins in flight on it. */
  class UserRepository {
    var account: Account
    var logins: map<nat, Login>
    var wrong: nat
    var unrecorded: nat
    var unlocked: nat
    var locks: nat
    var sets: nat

    constructor (status: Status)
      ensures View() == Fresh(status)
    {
      account, logins := Account(0, None, status), map[];
      wrong, unrecorded, unlocked, locks, sets := 0, 0, 0, 0, 0;
    }

    function View(): State
      reads this
    {
      State(account, logins, wrong, unrecorded, unlocked, locks, sets)
    }

    method RecordFailedLogin()
      modifies this`account
      ensures account == Failed(old(account)) && account.failures == old(account).failures + 1
      ensures account.lockedUntil == old(account).lockedUntil && account.status == old(account).status
    {
      account := account.(failures := account.failures + 1);
    }

    method LockUntil(until: int)
      modifies this`account
      ensures account == LockedTill(old(account), until)
      ensures account ==
        if old(account).lockedUntil.None? || old(account).lockedUntil.value < until
        then Account(old(account).failures, Some(until), Locked) else old(account)
    {
      if account.lockedUntil.None? || account.lockedUntil.value < until {
        account := account.(lockedUntil := Some(until), status := Locked);
      }
    }

    method ClearLockAndFailures()
      modifies this`account
      ensures account == Cleared(old(account))
      ensures account.failures == 0 && account.lockedUntil == None
      ensures account.status == if old(account).status == Locked then Enabled else old(account).status
    {
      account := account.(failures := 0, lockedUntil := None);
      if account.status == Locked {
        account := account.(status := Enabled);
      }
    }

    method UpdatePasswordHash()
      modifies this`account
      ensures account == Rehashed(old(account))
      ensures account.failures == 0 && account.lockedUntil == None && account.status == old(account).status
    {
      account := account.(failures := 0, lockedUntil := None);
    }

    method SetUserStatus(on: bool)
      modifies this`account
      ensures account == Set(old(account), on) && account.status == if on then Enabled else Disabled
      ensures account.failures == old(account).failures && account.lockedUntil == old(account).lockedUntil
    {
      account := account.(status := if on then Enabled else Disabled);
    }

    method MarkVerified()
      modifies this`account
      ensures account == Verified(old(account))
      ensures account.status == if old(account).status == Unverified then Enabled else old(account).status
      ensures account.failures == old(account).failures && account.lockedUntil == old(account).lockedUntil
    {
      if account.status == Unverified {
        account := account.(status := Enabled);
      }
    }

    method Happens(e: Event, p: Policy)
      modifies this
      ensures View() == Apply(old(View()), e, p)
    {
      match e {
        case Begin(r, t) =>
          if r !in logins && MayTry(account, t) { logins := logins[r := Checking(account)]; }
        case Wrong(r, _) =>
          if r in logins && logins[r].Checking? {
            wrong := wrong + 1;
            logins := logins[r := Failing(logins[r].seen)];
          }
        case Record(r, _) =>
          if r in logins && logins[r].Failing? {
            RecordFailedLogin();
            logins := if logins[r].seen.failures + 1 >= p.max then logins[r := Locking] else logins - {r};
          }
        case Right(r, _) =>
          if r in logins && logins[r].Checking? { logins := logins - {r}; }
        case Lock(r, t) =>
          if r in logins && logins[r].Locking? {
            if Moves(account, t + p.lockout) { locks := locks + 1; }
            LockUntil(t + p.lockout);
            logins := logins - {r};
          }
        case Abort(r, _) =>
          if r in logins {
            if logins[r].Failing? { unrecorded := unrecorded + 1; }
            if logins[r].Locking? { unlocked := unlocked + 1; }
            logins := logins - {r};
          }
        case Verify(_) => MarkVerified();
        case SetStatus(on, _) =>
          SetUserStatus(on);
          sets := sets + 1;
        case Clear(_) => ClearLockAndFailures();
        case Rehash(_) => UpdatePasswordHash();
      }
    }

    method Happen(es: seq<Event>, p: Policy)
      modifies this
      ensures View() == Run(old(View()), es, p)
    {
      var i := 0;
      while i < |es|
        invariant i <= |es|
        invariant Run(View(), es[i..], p) == Run(old(View()), es, p)
      {
        assert es[i..][1..] == es[i + 1..];
        Happens(es[i], p);
        i := i + 1;
      }
    }

    /** One statement of the login, after a trace that led to the present state. */
    method Takes(ghost before: State, ghost done: seq<Event>, e: Event, p: Policy)
      requires View() == Run(before, done, p)
      modifies this
      ensures View() == Apply(old(View()), e, p) && View() == Run(before, done + [e], p)
    {
      ghost var now := View();
      Happens(e, p);
      RunConcat(before, done, [e], p);
      assert Run(now, [e], p) == Run(View(), [], p);
    }

    /** What the others do in a pause of login r. */
    method Pause(ghost before: State, ghost done: seq<Event>, es: seq<Event>, r: nat, p: Policy)
      requires View() == Run(before, done, p) && r in logins && Others(es, r)
      modifies this
      ensures View() == Run(before, done + es, p) && r in logins && logins[r] == old(logins)[r]
    {
      RunConcat(before, done, es, p);
      OthersKeepLogin(View(), es, r, p);
      Happen(es, p);
    }

    /**
     AuthService.login up to the gate on the e-mail address: others run in every pause. The counter and
     the status it tests are the ones it read, not the ones it wrote.
     */
    method Login(r: nat, correct: bool, at: Times, w: Pauses, p: Policy) returns (outcome: Outcome)
      requires r !in logins && OthersOnly(w, r)
      modifies this
      ensures View() == Run(old(View()), LoginTrace(old(account), r, correct, at, w, p), p)
      ensures outcome.Refused? <==>
        || old(account).status == Disabled
        || (old(account).lockedUntil.Some? && at.read < old(account).lockedUntil.value)
      ensures outcome.BadPassword? <==> !correct && !outcome.Refused?
      ensures outcome.NotVerified? <==> correct && !outcome.Refused? && old(account).status == Unverified
    {
      var seen := account;
      if seen.status == Disabled { return Refused; }
      if seen.lockedUntil.Some? && seen.lockedUntil.value > at.read { return Refused; }
      ghost var before := View();
      ghost var checked := [Begin(r, at.read)] + w.hashing;
      assert [] + [Begin(r, at.read)] == [Begin(r, at.read)];
      Takes(before, [], Begin(r, at.read), p);
      Pause(before, [Begin(r, at.read)], w.hashing, r, p);
      if correct {
        Takes(before, checked, Right(r, at.verdict), p);
        if seen.status == Unverified { return NotVerified; }
        return Accepted;
      }
      Takes(before, checked, Wrong(r, at.verdict), p);
      Pause(before, checked + [Wrong(r, at.verdict)], w.recording, r, p);
      Takes(before, checked + [Wrong(r, at.verdict)] + w.recording, Record(r, at.verdict), p);
      var failures := seen.failures + 1;
      if failures >= p.max {
        ghost var recorded := checked + [Wrong(r, at.verdict)] + w.recording + [Record(r, at.verdict)];
        Pause(before, recorded, w.locking, r, p);
        Takes(before, recorded + w.locking, Lock(r, at.lock), p);
      }
      outcome := BadPassword;
    }
  }
}
