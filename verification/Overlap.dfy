/** The lockout bound when logins of one account overlap, but at most m at a time. */
module Overlap {
  import opened Basics
  import opened Lockout

  /**
   How the logins in flight and the wrong passwords are accounted for, after n locks in a row of one
   lockout each. A login is cold if its failure is too early to lock, else hot; hot logins began after
   the last of the n locks (current) or before it (older). ended and cooled count the hot and cold ones
   that locked or recorded their failure; judged are those in flight whose password was wrong. The n
   lockouts take span, and leave room for the logins of n rounds.
   */
  datatype Ledger = Ledger(
    n: nat, span: nat, room: nat, current: set<nat>, older: set<nat>, cold: set<nat>, judged: set<nat>, ended: nat,
      cooled: nat)

  predicate Hot(l: Login, p: Policy) { l.Locking? || l.seen.failures + 1 >= p.max }

  predicate Placed(l: Login, r: nat, p: Policy, g: Ledger) {
    (r in g.judged <==> !l.Checking?) && (r in g.cold <==> !Hot(l, p))
  }

  ghost predicate Sorted(s: State, p: Policy, g: Ledger) {
    && s.logins.Keys == g.current + g.older + g.cold
    && g.current !! g.older && g.current !! g.cold && g.older !! g.cold
    && (forall r :: r in s.logins ==> Placed(s.logins[r], r, p, g))
    && g.judged <= s.logins.Keys
  }

  /** How many failures beyond the limit less one can be recorded without locking. */
  function Surplus(p: Policy, m: nat): int { if p.max == 1 then 0 else m - 1 }

  /** The wrong passwords evaluated by logins that did not die before they recorded or locked. */
  function Counted(s: State): int { s.wrong - s.unrecorded - s.unlocked }

  ghost predicate Balanced(s: State, p: Policy, m: nat, g: Ledger) {
    && g.ended + |g.older| <= g.room
    && g.cooled <= s.account.failures && g.cooled + |g.cold| <= p.max - 1 + Surplus(p, m)
    && Counted(s) == g.ended + g.cooled + |g.judged|
  }

  ghost predicate Late(s: State, p: Policy, from: int, now: int, g: Ledger) {
    && from <= now && (g.n == 0 ==> g.span == 0)
    && (g.current != {} ==> from + g.span <= now)
    && from + g.span - p.lockout <= now
    && (g.n > 0 ==> s.account.lockedUntil.Some? && from + g.span <= s.account.lockedUntil.value)
  }

  predicate Rounds(p: Policy, m: nat, g: Ledger) { g.span == g.n * p.lockout && g.room == m * g.n }

  ghost predicate Kept(s: State, p: Policy, m: nat, from: int, now: int, g: Ledger) {
    Sorted(s, p, g) && Balanced(s, p, m, g) && Late(s, p, from, now, g)
  }

  lemma Subset(a: set<nat>, b: set<nat>)
    requires a <= b
    ensures |a| <= |b|
  {
    assert b == a + (b - a);
  }

  lemma UnionAtMost(a: set<nat>, b: set<nat>)
    ensures |a + b| <= |a| + |b|
  {
    assert a + b == a + (b - a);
    Subset(b - a, b);
  }

  lemma Less(a: set<nat>, r: nat)
    ensures |a - {r}| == if r in a then |a| - 1 else |a|
  {
    if r !in a { assert a - {r} == a; }
  }

  function Without(g: Ledger, r: nat): Ledger {
    g.(current := g.current - {r}, older := g.older - {r}, cold := g.cold - {r}, judged := g.judged - {r})
  }

  /** The next lockout starts: every hot login in flight began before it. */
  function Turned(g: Ledger, p: Policy, m: nat): Ledger {
    g.(n := g.n + 1, span := g.span + p.lockout, room := g.room + m, current := {}, older := g.older + g.current)
  }

  /** The ledger stays in the same round or goes on to the next. */
  predicate Follows(p: Policy, m: nat, g: Ledger, g': Ledger) {
    || (g'.n == g.n && g'.span == g.span && g'.room == g.room)
    || (g'.n == g.n + 1 && g'.span == g.span + p.lockout && g'.room == g.room + m)
  }

  lemma RoundsFollow(p: Policy, m: nat, g: Ledger, g': Ledger)
    requires Rounds(p, m, g) && Follows(p, m, g, g')
    ensures Rounds(p, m, g')
  {
    assert (g.n + 1) * p.lockout == g.n * p.lockout + p.lockout;
    assert m * (g.n + 1) == m * g.n + m;
  }

  lemma SortedBegun(s: State, s': State, p: Policy, g: Ledger, r: nat)
    requires Sorted(s, p, g) && r !in s.logins && s'.logins == s.logins[r := Checking(s.account)]
    ensures Sorted(s', p, if s.account.failures + 1 >= p.max then g.(current := g.current + {r})
                          else g.(cold := g.cold + {r}))
  {
  }

  lemma SortedWithout(s: State, s': State, p: Policy, g: Ledger, r: nat)
    requires Sorted(s, p, g) && s'.logins == s.logins - {r}
    ensures Sorted(s', p, Without(g, r))
  {
    var h := Without(g, r);
    forall q | q in s'.logins ensures Placed(s'.logins[q], q, p, h) {
      assert Placed(s.logins[q], q, p, g);
    }
  }

  lemma SortedMoved(s: State, s': State, p: Policy, g: Ledger, r: nat, l: Login)
    requires Sorted(s, p, g) && r in s.logins && s'.logins == s.logins[r := l]
    requires !l.Checking? && Hot(l, p) == Hot(s.logins[r], p)
    ensures Sorted(s', p, g.(judged := g.judged + {r}))
  {
    var h := g.(judged := g.judged + {r});
    assert Placed(s.logins[r], r, p, g);
    forall q | q in s'.logins ensures Placed(s'.logins[q], q, p, h) {
      assert q in s.logins && Placed(s.logins[q], q, p, g);
    }
  }

  lemma SortedEnded(s: State, p: Policy, g: Ledger, ended: nat, cooled: nat)
    requires Sorted(s, p, g)
    ensures Sorted(s, p, g.(ended := ended, cooled := cooled))
  {
    var h := g.(ended := ended, cooled := cooled);
    forall q | q in s.logins ensures Placed(s.logins[q], q, p, h) {
      assert Placed(s.logins[q], q, p, g);
    }
  }

  lemma SortedTurned(s: State, p: Policy, m: nat, g: Ledger)
    requires Sorted(s, p, g)
    ensures Sorted(s, p, Turned(g, p, m))
  {
    var h := Turned(g, p, m);
    forall q | q in s.logins ensures Placed(s.logins[q], q, p, h) {
      assert Placed(s.logins[q], q, p, g);
    }
  }

  lemma BalancedBegun(s: State, s': State, p: Policy, m: nat, g: Ledger, r: nat)
    requires Balanced(s, p, m, g) && s'.account == s.account && Counted(s') == Counted(s)
    requires r !in g.cold && s.account.failures + 1 < p.max && |g.cold| + 1 <= m
    ensures Balanced(s', p, m, g.(cold := g.cold + {r}))
  {
  }

  lemma BalancedJudged(s: State, s': State, p: Policy, m: nat, g: Ledger, r: nat)
    requires Balanced(s, p, m, g) && s'.account == s.account && Counted(s') == Counted(s) + 1 && r !in g.judged
    ensures Balanced(s', p, m, g.(judged := g.judged + {r}))
  {
  }

  lemma BalancedWithout(s: State, s': State, p: Policy, m: nat, g: Ledger, r: nat)
    requires Balanced(s, p, m, g) && s'.account == s.account
    requires Counted(s') == Counted(s) - (if r in g.judged then 1 else 0)
    ensures Balanced(s', p, m, Without(g, r))
  {
    Less(g.older, r);
    Less(g.cold, r);
    Less(g.judged, r);
  }

  lemma BalancedCooled(s: State, s': State, p: Policy, m: nat, g: Ledger, r: nat)
    requires Balanced(s, p, m, g) && s'.account == Failed(s.account) && Counted(s') == Counted(s)
    requires r in g.judged && r in g.cold && r !in g.older
    ensures Balanced(s', p, m, Without(g, r).(cooled := g.cooled + 1))
  {
    Less(g.older, r);
    Less(g.cold, r);
    Less(g.judged, r);
  }

  lemma BalancedEnded(s: State, s': State, p: Policy, m: nat, g: Ledger, r: nat)
    requires Balanced(s, p, m, g) && s'.account.failures == s.account.failures && Counted(s') == Counted(s)
    requires r in g.judged && r in g.older && r !in g.cold
    ensures Balanced(s', p, m, Without(g, r).(ended := g.ended + 1))
  {
    Less(g.older, r);
    Less(g.cold, r);
    Less(g.judged, r);
  }

  lemma BalancedTurned(s: State, s': State, p: Policy, m: nat, g: Ledger, r: nat)
    requires Balanced(s, p, m, g) && s'.account.failures == s.account.failures && Counted(s') == Counted(s)
    requires r in g.judged && r in g.current && r !in g.older && r !in g.cold && |g.current| <= m
    ensures Balanced(s', p, m, Turned(Without(g, r), p, m).(ended := g.ended + 1))
  {
    Less(g.older, r);
    Less(g.cold, r);
    Less(g.judged, r);
    Less(g.current, r);
    UnionAtMost(g.older - {r}, g.current - {r});
  }

  /** Time passes, the lock only moves on, and hot logins begin only while the account is not locked. */
  lemma LateKept(s: State, s': State, p: Policy, from: int, now: int, t: int, g: Ledger, g': Ledger)
    requires Late(s, p, from, now, g) && now <= t && g'.n == g.n && g'.span == g.span
    requires g'.current <= g.current || MayTry(s.account, t)
    requires s.account.lockedUntil.Some? ==>
      s'.account.lockedUntil.Some? && s'.account.lockedUntil.value >= s.account.lockedUntil.value
    ensures Late(s', p, from, t, g')
  {
  }

  lemma LateTurned(s: State, s': State, p: Policy, from: int, now: int, t: int, g: Ledger, g': Ledger)
    requires Late(s, p, from, now, g) && g.current != {} && now <= t
    requires g'.n > 0 && g'.span == g.span + p.lockout && g'.current == {}
    requires s'.account == LockedTill(s.account, t + p.lockout)
    ensures Late(s', p, from, t, g')
  {
  }

  lemma BeginKept(s: State, r: nat, t: int, p: Policy, m: nat, from: int, now: int, g: Ledger) returns (g': Ledger)
    requires Kept(s, p, m, from, now, g) && now <= t && r !in s.logins && MayTry(s.account, t)
    requires |s.logins.Keys| + 1 <= m
    ensures Kept(Apply(s, Begin(r, t), p), p, m, from, t, g') && Follows(p, m, g, g')
  {
    var s' := Apply(s, Begin(r, t), p);
    SortedBegun(s, s', p, g, r);
    if s.account.failures + 1 >= p.max {
      g' := g.(current := g.current + {r});
    } else {
      g' := g.(cold := g.cold + {r});
      Subset(g.cold, s.logins.Keys);
      BalancedBegun(s, s', p, m, g, r);
    }
    LateKept(s, s', p, from, now, t, g, g');
  }

  lemma WrongKept(s: State, r: nat, t: int, p: Policy, m: nat, from: int, now: int, g: Ledger) returns (g': Ledger)
    requires Kept(s, p, m, from, now, g) && now <= t && r in s.logins && s.logins[r].Checking?
    ensures Kept(Apply(s, Wrong(r, t), p), p, m, from, t, g') && Follows(p, m, g, g')
  {
    var s' := Apply(s, Wrong(r, t), p);
    assert Placed(s.logins[r], r, p, g);
    g' := g.(judged := g.judged + {r});
    SortedMoved(s, s', p, g, r, Failing(s.logins[r].seen));
    BalancedJudged(s, s', p, m, g, r);
    LateKept(s, s', p, from, now, t, g, g');
  }

  lemma HotRecordKept(s: State, r: nat, t: int, p: Policy, m: nat, from: int, now: int, g: Ledger)
    requires Kept(s, p, m, from, now, g) && now <= t && r in s.logins && s.logins[r].Failing?
    requires Hot(s.logins[r], p)
    ensures Kept(Apply(s, Record(r, t), p), p, m, from, t, g)
  {
    var s' := Apply(s, Record(r, t), p);
    assert Placed(s.logins[r], r, p, g);
    assert g.judged + {r} == g.judged;
    SortedMoved(s, s', p, g, r, Locking);
    LateKept(s, s', p, from, now, t, g, g);
  }

  lemma ColdRecordKept(s: State, r: nat, t: int, p: Policy, m: nat, from: int, now: int, g: Ledger)
    requires Kept(s, p, m, from, now, g) && now <= t && r in s.logins && s.logins[r].Failing?
    requires !Hot(s.logins[r], p)
    ensures Kept(Apply(s, Record(r, t), p), p, m, from, t, Without(g, r).(cooled := g.cooled + 1))
  {
    var s' := Apply(s, Record(r, t), p);
    assert Placed(s.logins[r], r, p, g);
    SortedWithout(s, s', p, g, r);
    SortedEnded(s', p, Without(g, r), g.ended, g.cooled + 1);
    BalancedCooled(s, s', p, m, g, r);
    LateKept(s, s', p, from, now, t, g, Without(g, r).(cooled := g.cooled + 1));
  }

  lemma GoneKept(s: State, s': State, r: nat, t: int, p: Policy, m: nat, from: int, now: int, g: Ledger)
    requires Kept(s, p, m, from, now, g) && now <= t && r in s.logins
    requires s'.logins == s.logins - {r} && s'.account == s.account
    requires Counted(s') == Counted(s) - (if s.logins[r].Checking? then 0 else 1)
    ensures Kept(s', p, m, from, t, Without(g, r))
  {
    assert Placed(s.logins[r], r, p, g);
    SortedWithout(s, s', p, g, r);
    BalancedWithout(s, s', p, m, g, r);
    LateKept(s, s', p, from, now, t, g, Without(g, r));
  }

  lemma LockEffect(s: State, r: nat, t: int, p: Policy)
    requires r in s.logins && s.logins[r].Locking?
    ensures var s' := Apply(s, Lock(r, t), p);
      && s'.logins == s.logins - {r} && s'.account == LockedTill(s.account, t + p.lockout)
      && s'.account.failures == s.account.failures && Counted(s') == Counted(s)
  {
  }

  /** The lock of a login that began before the last lock changes nothing of the pace. */
  lemma OlderLockKept(s: State, r: nat, t: int, p: Policy, m: nat, from: int, now: int, g: Ledger)
    requires Kept(s, p, m, from, now, g) && now <= t && r in s.logins && s.logins[r].Locking? && r !in g.current
    ensures Kept(Apply(s, Lock(r, t), p), p, m, from, t, Without(g, r).(ended := g.ended + 1))
  {
    var s' := Apply(s, Lock(r, t), p);
    LockEffect(s, r, t, p);
    assert Placed(s.logins[r], r, p, g);
    SortedWithout(s, s', p, g, r);
    SortedEnded(s', p, Without(g, r), g.ended + 1, g.cooled);
    BalancedEnded(s, s', p, m, g, r);
    LateKept(s, s', p, from, now, t, g, Without(g, r).(ended := g.ended + 1));
  }

  lemma SortedLocked(s: State, s': State, r: nat, p: Policy, m: nat, g: Ledger)
    requires Sorted(s, p, g) && s'.logins == s.logins - {r}
    ensures Sorted(s', p, Turned(Without(g, r), p, m).(ended := g.ended + 1))
  {
    SortedWithout(s, s', p, g, r);
    SortedTurned(s', p, m, Without(g, r));
    SortedEnded(s', p, Turned(Without(g, r), p, m), g.ended + 1, g.cooled);
  }

  lemma BalancedLocked(s: State, s': State, r: nat, p: Policy, m: nat, g: Ledger)
    requires Sorted(s, p, g) && Balanced(s, p, m, g) && r in s.logins && s.logins[r].Locking? && r in g.current
    requires s'.account.failures == s.account.failures && Counted(s') == Counted(s) && |s.logins.Keys| <= m
    ensures Balanced(s', p, m, Turned(Without(g, r), p, m).(ended := g.ended + 1))
  {
    assert Placed(s.logins[r], r, p, g);
    Subset(g.current, s.logins.Keys);
    BalancedTurned(s, s', p, m, g, r);
  }

  lemma LateLocked(s: State, s': State, r: nat, t: int, p: Policy, m: nat, from: int, now: int, g: Ledger)
    requires Late(s, p, from, now, g) && now <= t && r in g.current
    requires s'.account == LockedTill(s.account, t + p.lockout)
    ensures Late(s', p, from, t, Turned(Without(g, r), p, m).(ended := g.ended + 1))
  {
    LateTurned(s, s', p, from, now, t, g, Turned(Without(g, r), p, m).(ended := g.ended + 1));
  }

  /** The lock of a current login starts the next lockout. */
  lemma CurrentLockKept(s: State, r: nat, t: int, p: Policy, m: nat, from: int, now: int, g: Ledger)
    requires Kept(s, p, m, from, now, g) && now <= t && r in s.logins && s.logins[r].Locking? && r in g.current
    requires |s.logins.Keys| <= m
    ensures Kept(Apply(s, Lock(r, t), p), p, m, from, t, Turned(Without(g, r), p, m).(ended := g.ended + 1))
  {
    var s' := Apply(s, Lock(r, t), p);
    LockEffect(s, r, t, p);
    SortedLocked(s, s', r, p, m, g);
    BalancedLocked(s, s', r, p, m, g);
    LateLocked(s, s', r, t, p, m, from, now, g);
  }

  lemma IdleKept(s: State, s': State, p: Policy, m: nat, from: int, now: int, t: int, g: Ledger)
    requires Kept(s, p, m, from, now, g) && now <= t
    requires s'.logins == s.logins && Counted(s') == Counted(s)
    requires s'.account.failures == s.account.failures && s'.account.lockedUntil == s.account.lockedUntil
    ensures Kept(s', p, m, from, t, g)
  {
    LateKept(s, s', p, from, now, t, g, g);
  }

  lemma EventKept(s: State, e: Event, p: Policy, m: nat, from: int, now: int, g: Ledger) returns (g': Ledger)
    requires Kept(s, p, m, from, now, g) && now <= e.t && !e.Clear? && !e.Rehash?
    requires |s.logins.Keys| <= m && |Apply(s, e, p).logins.Keys| <= m
    ensures Kept(Apply(s, e, p), p, m, from, e.t, g') && Follows(p, m, g, g')
  {
    var s' := Apply(s, e, p);
    if s' == s || e.Verify? || e.SetStatus? {
      IdleKept(s, s', p, m, from, now, e.t, g);
      g' := g;
    } else if e.Begin? {
      assert s'.logins.Keys == s.logins.Keys + {e.r};
      g' := BeginKept(s, e.r, e.t, p, m, from, now, g);
    } else if e.Wrong? {
      g' := WrongKept(s, e.r, e.t, p, m, from, now, g);
    } else if e.Record? {
      if Hot(s.logins[e.r], p) {
        HotRecordKept(s, e.r, e.t, p, m, from, now, g);
        g' := g;
      } else {
        ColdRecordKept(s, e.r, e.t, p, m, from, now, g);
        g' := Without(g, e.r).(cooled := g.cooled + 1);
      }
    } else if e.Lock? {
      if e.r in g.current {
        CurrentLockKept(s, e.r, e.t, p, m, from, now, g);
        g' := Turned(Without(g, e.r), p, m).(ended := g.ended + 1);
      } else {
        OlderLockKept(s, e.r, e.t, p, m, from, now, g);
        g' := Without(g, e.r).(ended := g.ended + 1);
      }
    } else {
      GoneKept(s, s', e.r, e.t, p, m, from, now, g);
      g' := Without(g, e.r);
    }
  }

  lemma Scaled(a: int, b: int, x: nat)
    requires a <= b
    ensures a * x <= b * x
  {
  }

  lemma Product(k: int, m: nat, j: int, x: nat, d: int)
    requires k <= m * j && j * x <= d
    ensures k * x <= m * d
  {
    Scaled(k, m * j, x);
    assert (m * j) * x == m * (j * x);
    Scaled(j * x, d, m);
  }

  lemma JudgedAtMost(s: State, p: Policy, m: nat, g: Ledger)
    requires Sorted(s, p, g) && |s.logins.Keys| <= m
    ensures |g.judged| <= |g.current| + |g.older| + |g.cold| && |g.current| <= m
  {
    Subset(g.judged, g.current + g.older + g.cold);
    UnionAtMost(g.current + g.older, g.cold);
    UnionAtMost(g.current, g.older);
    Subset(g.current, s.logins.Keys);
  }

  /** Those of them that have to be paid with time. */
  function Excess(s: State, p: Policy, m: nat): int { Counted(s) - p.max - (m - 1) - Surplus(p, m) }

  lemma ExcessAtMost(s: State, p: Policy, m: nat, g: Ledger)
    requires Sorted(s, p, g) && Balanced(s, p, m, g) && |s.logins.Keys| <= m
    ensures Excess(s, p, m) <= g.room - (if g.current == {} then m else 0)
  {
    JudgedAtMost(s, p, m, g);
  }

  lemma PacedExcess(p: Policy, m: nat, from: int, now: int, g: Ledger, excess: int, idle: bool)
    requires Rounds(p, m, g) && excess <= g.room - (if idle then m else 0)
    requires from + g.span - (if idle then p.lockout else 0) <= now
    ensures excess * p.lockout <= m * (now - from)
  {
    var j := if idle then g.n - 1 else g.n;
    assert m * (g.n - 1) == m * g.n - m && (g.n - 1) * p.lockout == g.n * p.lockout - p.lockout;
    Product(excess, m, j, p.lockout, now - from);
  }

  /** What the ledger says of the time passed. */
  lemma KeptBound(s: State, p: Policy, m: nat, from: int, now: int, g: Ledger)
    requires Kept(s, p, m, from, now, g) && Rounds(p, m, g) && |s.logins.Keys| <= m
    ensures Excess(s, p, m) * p.lockout <= m * (now - from)
  {
    ExcessAtMost(s, p, m, g);
    PacedExcess(p, m, from, now, g, Excess(s, p, m), g.current == {});
  }

  lemma {:induction false} RunKeeps(
      s: State, es: seq<Event>, p: Policy, m: nat, from: int, now: int, until: int, g: Ledger) returns (g': Ledger)
    requires Kept(s, p, m, from, now, g) && Rounds(p, m, g) && Few(s, es, p, m) && Timed(es, now, until)
    ensures Kept(Run(s, es, p), p, m, from, until, g') && Rounds(p, m, g') && |Run(s, es, p).logins.Keys| <= m
    decreases |es|
  {
    if es == [] {
      g' := g;
      IdleKept(s, s, p, m, from, now, until, g);
    } else {
      var h := EventKept(s, es[0], p, m, from, now, g);
      RoundsFollow(p, m, g, h);
      g' := RunKeeps(Apply(s, es[0], p), es[1..], p, m, from, es[0].t, until, h);
    }
  }

  lemma FreshKept(status: Status, p: Policy, m: nat, from: int) returns (g: Ledger)
    requires m >= 1 && p.max >= 1
    ensures Kept(Fresh(status), p, m, from, from, g) && Rounds(p, m, g)
  {
    g := Ledger(0, 0, 0, {}, {}, {}, {}, 0, 0);
  }

  /**
   With at most m logins of the account in flight at a time, k wrong passwords evaluated since the
   counter was cleared, not counting those whose login died before it recorded or locked, take at
   least (k - MAX_FAILED_LOGINS - 2 (m - 1)) / m lockouts. With a limit of one failure no login can
   fail without locking, and only (m - 1) are deducted.
   */
  lemma LockoutBound(status: Status, es: seq<Event>, p: Policy, m: nat, from: int, until: int)
    requires m >= 1 && p.max >= 1 && Few(Fresh(status), es, p, m) && Timed(es, from, until)
    ensures var s := Run(Fresh(status), es, p);
      && Excess(s, p, m) ==
         s.wrong - s.unrecorded - s.unlocked - p.max - (if p.max == 1 then m - 1 else 2 * (m - 1))
      && Excess(s, p, m) * p.lockout <= m * (until - from)
  {
    var start := FreshKept(status, p, m, from);
    var g := RunKeeps(Fresh(status), es, p, m, from, from, until, start);
    KeptBound(Run(Fresh(status), es, p), p, m, from, until, g);
  }

  // The bound is reached

  function Records(n: nat, t: int): seq<Event> { seq(n, i requires 0 <= i < n => Record(i, t)) }

  function Locks(n: nat, t: int): seq<Event> { seq(n, i requires 0 <= i < n => Lock(i, t)) }

  function More(a: Account, n: nat): Account { a.(failures := a.failures + n) }

  /** Failures that are too early to lock. */
  lemma {:induction false} AllRecordCold(s: State, a: Account, n: nat, m: nat, t: int, p: Policy)
    requires n <= m && s.logins == Wave(0, m, m, Failing(a), Failing(a)) && a.failures + 1 < p.max
    ensures Run(s, Records(n, t), p) ==
      s.(account := More(s.account, n), logins := Wave(n, m, m, Failing(a), Failing(a)))
    decreases n
  {
    if n > 0 {
      AllRecordCold(s, a, n - 1, m, t, p);
      assert Records(n, t) == Records(n - 1, t) + [Record(n - 1, t)];
      RunConcat(s, Records(n - 1, t), [Record(n - 1, t)], p);
      var w := Wave(n - 1, m, m, Failing(a), Failing(a));
      assert Wave(n, m, m, Failing(a), Failing(a)) == w - {n - 1};
    }
  }

  lemma {:induction false} AllRecordHot(s: State, a: Account, n: nat, m: nat, t: int, p: Policy)
    requires n <= m && s.logins == Wave(0, m, m, Failing(a), Failing(a)) && a.failures + 1 >= p.max
    ensures Run(s, Records(n, t), p) ==
      s.(account := More(s.account, n), logins := Wave(0, n, m, Locking, Failing(a)))
    decreases n
  {
    if n == 0 {
      assert s.logins == Wave(0, n, m, Locking, Failing(a));
    } else {
      AllRecordHot(s, a, n - 1, m, t, p);
      assert Records(n, t) == Records(n - 1, t) + [Record(n - 1, t)];
      RunConcat(s, Records(n - 1, t), [Record(n - 1, t)], p);
      assert Wave(0, n, m, Locking, Failing(a)) == Wave(0, n - 1, m, Locking, Failing(a))[n - 1 := Locking];
    }
  }

  /** A row that is locked until then at the latest, or not at all. */
  predicate FreeFrom(a: Account, t: int) {
    a.status != Disabled && (a.lockedUntil.Some? ==> a.lockedUntil.value <= t)
  }

  lemma {:induction false} AllLock(s: State, n: nat, m: nat, t: int, p: Policy)
    requires n <= m && s.logins == Wave(0, m, m, Locking, Locking) && FreeFrom(s.account, t + p.lockout)
    ensures var s' := Run(s, Locks(n, t), p);
      && s' == s.(account := s'.account, locks := s'.locks, logins := Wave(n, m, m, Locking, Locking))
      && s'.account.failures == s.account.failures && FreeFrom(s'.account, t + p.lockout)
    decreases n
  {
    if n > 0 {
      AllLock(s, n - 1, m, t, p);
      assert Locks(n, t) == Locks(n - 1, t) + [Lock(n - 1, t)];
      RunConcat(s, Locks(n - 1, t), [Lock(n - 1, t)], p);
      assert Wave(n, m, m, Locking, Locking) == Wave(n - 1, m, m, Locking, Locking) - {n - 1};
    }
  }

  /** No login in flight, and so many wrong passwords and failures so far. */
  predicate Calm(s: State, wrong: nat, failures: nat, freeAt: int) {
    && s.logins == map[] && s.wrong == wrong && s.unrecorded == 0 && s.unlocked == 0
    && s.account.failures == failures && FreeFrom(s.account, freeAt)
  }

  /** m logins that all read the row and check a wrong password, and then all record their failure. */
  function Failures(m: nat, t: int): seq<Event> { Begins(m, t) + Wrongs(m, t) + Records(m, t) }

  function Judged(s: State, m: nat): State {
    s.(wrong := s.wrong + m, logins := Wave(0, m, m, Failing(s.account), Failing(s.account)))
  }

  lemma FailuresRun(s: State, m: nat, t: int, p: Policy)
    requires s.logins == map[] && MayTry(s.account, t)
    ensures Run(s, Failures(m, t), p) == Run(Judged(s, m), Records(m, t), p)
  {
    var l := Checking(s.account);
    var s1 := s.(logins := Wave(0, m, m, l, l));
    AllBegin(s, m, t, p);
    AllWrong(s1, s.account, m, m, t, p);
    assert Wave(0, m, m, Failing(s.account), l) == Wave(0, m, m, Failing(s.account), Failing(s.account));
    RunConcat(s, Begins(m, t), Wrongs(m, t), p);
    RunConcat(s, Begins(m, t) + Wrongs(m, t), Records(m, t), p);
  }

  /** m overlapping logins that all read a row two or more failures short of the limit fail without locking it. */
  lemma ColdRound(s: State, m: nat, wrong: nat, failures: nat, t: int, p: Policy)
    requires Calm(s, wrong, failures, t) && failures + 1 < p.max
    ensures Calm(Run(s, Failures(m, t), p), wrong + m, failures + m, t)
  {
    FailuresRun(s, m, t, p);
    AllRecordCold(Judged(s, m), s.account, m, m, t, p);
    assert Wave(m, m, m, Failing(s.account), Failing(s.account)) == map[];
  }

  lemma HotRound(s: State, m: nat, wrong: nat, failures: nat, t: int, p: Policy)
    requires Calm(s, wrong, failures, t) && failures + 1 >= p.max
    ensures Calm(Run(s, Failures(m, t) + Locks(m, t), p), wrong + m, failures + m, t + p.lockout)
  {
    FailuresRun(s, m, t, p);
    AllRecordHot(Judged(s, m), s.account, m, m, t, p);
    assert Wave(0, m, m, Locking, Failing(s.account)) == Wave(0, m, m, Locking, Locking);
    var s1 := Run(s, Failures(m, t), p);
    AllLock(s1, m, m, t, p);
    assert Wave(m, m, m, Locking, Locking) == map[];
    RunConcat(s, Failures(m, t), Locks(m, t), p);
  }

  /** The start of round n, the first of which is 0. */
  function RoundAt(n: int, t: int, p: Policy): int { t + n * p.lockout }

  /** n rounds of m logins each, every round as soon as the account is not locked. */
  function Siege(n: nat, m: nat, t: int, p: Policy): seq<Event> {
    if n == 0 then []
    else Siege(n - 1, m, t, p) + (Failures(m, RoundAt(n - 1, t, p)) + Locks(m, RoundAt(n - 1, t, p)))
  }

  lemma {:induction false} SiegeRun(s: State, n: nat, m: nat, wrong: nat, failures: nat, t: int, p: Policy)
    requires Calm(s, wrong, failures, t) && failures + 1 >= p.max
    ensures Calm(Run(s, Siege(n, m, t, p), p), wrong + m * n, failures + m * n, RoundAt(n, t, p))
    decreases n
  {
    if n > 0 {
      SiegeRun(s, n - 1, m, wrong, failures, t, p);
      var at := RoundAt(n - 1, t, p);
      var before := m * (n - 1);
      RoundLater(n, m, t, p);
      HotRound(Run(s, Siege(n - 1, m, t, p), p), m, wrong + before, failures + before, at, p);
      RunConcat(s, Siege(n - 1, m, t, p), Failures(m, at) + Locks(m, at), p);
    }
  }

  lemma RoundLater(n: nat, m: nat, t: int, p: Policy)
    requires n > 0
    ensures m * n == m * (n - 1) + m && RoundAt(n, t, p) == RoundAt(n - 1, t, p) + p.lockout
  {
    assert n * p.lockout == (n - 1) * p.lockout + p.lockout;
  }

  lemma {:induction false} SiegeTimed(n: nat, m: nat, t: int, p: Policy)
    requires n > 0
    ensures Timed(Siege(n, m, t, p), t, RoundAt(n - 1, t, p))
    decreases n
  {
    var at := RoundAt(n - 1, t, p);
    SameTime(Failures(m, at) + Locks(m, at), at);
    if n == 1 {
      assert Siege(n, m, t, p) == Failures(m, at) + Locks(m, at) && at == t;
    } else {
      SiegeTimed(n - 1, m, t, p);
      RoundLater(n - 1, m, t, p);
      assert Timed(Failures(m, at) + Locks(m, at), RoundAt(n - 2, t, p), at);
      TimedConcat(Siege(n - 1, m, t, p), Failures(m, at) + Locks(m, at), t, RoundAt(n - 2, t, p), at);
    }
  }

  lemma {:induction false} SiegeTries(n: nat, m: nat, t: int, p: Policy)
    ensures Tries(Siege(n, m, t, p), m)
    decreases n
  {
    if n > 0 {
      SiegeTries(n - 1, m, t, p);
    }
  }

  /** Failures one at a time until they are two short of the limit, then a round that still does not lock. */
  function Prelude(m: nat, t: int, p: Policy): seq<Event> {
    if p.max < 2 then [] else Patient(p.max - 2, t, p) + Failures(m, t)
  }

  function Free(m: nat, p: Policy): nat { if p.max < 2 then 0 else p.max - 2 + m }

  lemma PreludeRun(status: Status, m: nat, t: int, p: Policy)
    requires p.max >= 1 && status != Disabled
    ensures Calm(Run(Fresh(status), Prelude(m, t, p), p), Free(m, p), Free(m, p), t)
  {
    if p.max >= 2 {
      PatientCounts(status, p.max - 2, t, p);
      RunConcat(Fresh(status), Patient(p.max - 2, t, p), Failures(m, t), p);
      ColdRound(Run(Fresh(status), Patient(p.max - 2, t, p), p), m, p.max - 2, p.max - 2, t, p);
    }
  }

  lemma PreludeTimed(m: nat, t: int, p: Policy)
    ensures Timed(Prelude(m, t, p), t, t)
  {
    SameTime(Failures(m, t), t);
    if p.max == 2 {
      assert Prelude(m, t, p) == Failures(m, t);
    } else if p.max > 2 {
      PatientCounts(Enabled, p.max - 2, t, p);
      TimedConcat(Patient(p.max - 2, t, p), Failures(m, t), t, t, t);
    }
  }

  lemma PreludeTries(m: nat, t: int, p: Policy)
    requires m >= 1
    ensures Tries(Prelude(m, t, p), m)
  {
    if p.max >= 2 {
      PatientTries(p.max - 2, t, p);
    }
  }

  lemma AllCount(status: Status, m: nat, n: nat, t: int, p: Policy)
    requires p.max >= 1 && m >= 1 && n >= 1 && status != Disabled
    ensures var s := Run(Fresh(status), Prelude(m, t, p) + Siege(n, m, t, p), p);
      Calm(s, Free(m, p) + m * n, Free(m, p) + m * n, RoundAt(n, t, p))
  {
    PreludeRun(status, m, t, p);
    RunConcat(Fresh(status), Prelude(m, t, p), Siege(n, m, t, p), p);
    SiegeRun(Run(Fresh(status), Prelude(m, t, p), p), n, m, Free(m, p), Free(m, p), t, p);
  }

  lemma AllFew(status: Status, m: nat, n: nat, t: int, p: Policy)
    requires m >= 1
    ensures Few(Fresh(status), Prelude(m, t, p) + Siege(n, m, t, p), p, m)
  {
    PreludeTries(m, t, p);
    SiegeTries(n, m, t, p);
    FewTries(Fresh(status), Prelude(m, t, p) + Siege(n, m, t, p), p, m);
  }

  lemma AllTimed(m: nat, n: nat, t: int, p: Policy)
    requires n >= 1
    ensures Timed(Prelude(m, t, p) + Siege(n, m, t, p), t, RoundAt(n - 1, t, p))
  {
    PreludeTimed(m, t, p);
    SiegeTimed(n, m, t, p);
    TimedConcat(Prelude(m, t, p), Siege(n, m, t, p), t, t, RoundAt(n - 1, t, p));
  }

  /** No larger bound holds, for any policy, any m and any number of lockouts. */
  lemma LockoutBoundIsReached(status: Status, m: nat, n: nat, t: int, p: Policy)
    requires p.max >= 1 && m >= 1 && n >= 1 && status != Disabled
    ensures var es := Prelude(m, t, p) + Siege(n, m, t, p);
      && Few(Fresh(status), es, p, m) && Timed(es, t, t + (n - 1) * p.lockout)
      && Excess(Run(Fresh(status), es, p), p, m) == m * (n - 1)
  {
    AllFew(status, m, n, t, p);
    AllTimed(m, n, t, p);
    AllCount(status, m, n, t, p);
    RoundLater(n, m, t, p);
  }
}
