/** Every event preserves the invariant and lets the tables only grow. */
module Preservation {
  import opened Basics
  import opened Tables
  import opened Machine
  import opened Invariant

  /** Only request r moved; whatever is new or changed satisfies its local facts. */
  ghost predicate NewOk(s: State, s': State, r: nat) {
    && s'.procs - {r} == s.procs - {r}
    && (r in s'.procs ==> ProcOk(s', s'.procs[r]))
    && (forall i {:trigger s'.tokens[i]} :: |s.tokens| <= i < |s'.tokens| ==>
          RowOk(s', s'.tokens[i]) && LinkOk(s'.tokens, i) && s'.tokens[i].status == Active)
    && (forall j {:trigger s'.sessions[j]} :: 0 <= j < |s'.sessions| ==>
          (j < |s.sessions| && s'.sessions[j].mfaPassed == s.sessions[j].mfaPassed) || SessionOk(s', j, s'.sessions[j]))
    && (forall c {:trigger s'.codes[c]} :: 0 <= c < |s'.codes| ==>
          (c < |s.codes| && s'.codes[c] == s.codes[c]) || CodeOk(s', s'.codes[c]))
    && (forall k {:trigger s'.grants[k]} :: |s.grants| <= k < |s'.grants| ==> GrantOk(s', s'.grants[k]))
    && (forall m {:trigger s'.changes[m]} :: |s.changes| <= m < |s'.changes| ==>
          s'.changes[m] < |s'.resets| && s'.resets[s'.changes[m]].used)
    && (forall sid {:trigger s'.cache[sid]} :: sid in s'.cache ==>
          (sid in s.cache && s'.cache[sid] == s.cache[sid]) || Snapshot(s'.sessions, sid, s'.cache[sid]))
    && (forall id {:trigger s'.challenges[id]} :: id in s'.challenges ==>
          (id in s.challenges && s'.challenges[id] == s.challenges[id]) || ChallengeOk(s', s'.challenges[id]))
  }

  lemma RowsAdvance(s: State, s': State, r: nat)
    requires Local(s) && Grows(s, s') && NewOk(s, s', r)
    ensures forall i {:trigger s'.tokens[i]} :: 0 <= i < |s'.tokens| ==> RowOk(s', s'.tokens[i]) && LinkOk(s'.tokens, i)
  {
    forall i {:trigger s'.tokens[i]} | 0 <= i < |s.tokens|
      ensures RowOk(s', s'.tokens[i]) && LinkOk(s'.tokens, i)
    {
      RowStable(s, s', s.tokens[i], s'.tokens[i].status);
      assert s'.tokens[i] == s.tokens[i].(status := s'.tokens[i].status);
      assert LinkOk(s.tokens, i);
    }
    forall i: nat | |s.tokens| <= i < |s'.tokens|
      ensures RowOk(s', s'.tokens[i]) && LinkOk(s'.tokens, i)
    {
      assert RowOk(s', s'.tokens[i]);
    }
  }

  lemma SessionStable(s: State, s': State, j: nat)
    requires Grows(s, s') && j < |s.sessions| && SessionOk(s, j, s.sessions[j])
    requires s'.sessions[j].mfaPassed == s.sessions[j].mfaPassed
    ensures SessionOk(s', j, s'.sessions[j])
  {
    if s.sessions[j].origin.SecondFactor? && s.sessions[j].mfaPassed {
      PassedStable(s, s', j);
    }
  }

  lemma SessionsAdvance(s: State, s': State, r: nat)
    requires Local(s) && Grows(s, s') && NewOk(s, s', r)
    ensures forall j {:trigger s'.sessions[j]} :: 0 <= j < |s'.sessions| ==> SessionOk(s', j, s'.sessions[j])
  {
    forall j: nat | j < |s'.sessions|
      ensures SessionOk(s', j, s'.sessions[j])
    {
      if j < |s.sessions| && s'.sessions[j].mfaPassed == s.sessions[j].mfaPassed {
        SessionStable(s, s', j);
      } else {
        assert s'.sessions[j] == s'.sessions[j];
      }
    }
  }

  lemma HistoriesAdvance(s: State, s': State, r: nat)
    requires Local(s) && Grows(s, s') && NewOk(s, s', r)
    ensures forall k {:trigger s'.grants[k]} :: 0 <= k < |s'.grants| ==> GrantOk(s', s'.grants[k])
    ensures forall m {:trigger s'.changes[m]} ::
      0 <= m < |s'.changes| ==> s'.changes[m] < |s'.resets| && s'.resets[s'.changes[m]].used
  {
    forall k {:trigger s'.grants[k]} | 0 <= k < |s.grants|
      ensures GrantOk(s', s'.grants[k])
    {
      GrantStable(s, s', s.grants[k]);
    }
    forall m {:trigger s'.changes[m]} | 0 <= m < |s.changes|
      ensures s'.changes[m] < |s'.resets| && s'.resets[s'.changes[m]].used
    {
      assert s'.changes[m] == s.changes[m];
    }
  }

  lemma RequestsAdvance(s: State, s': State, r: nat)
    requires Local(s) && Grows(s, s') && NewOk(s, s', r)
    ensures forall q {:trigger s'.procs[q]} :: q in s'.procs ==> ProcOk(s', s'.procs[q])
  {
    forall q {:trigger s'.procs[q]} | q in s'.procs && q != r
      ensures ProcOk(s', s'.procs[q])
    {
      assert q in s'.procs - {r};
      assert q in s.procs && (s.procs - {r})[q] == s.procs[q] == s'.procs[q];
      ProcStable(s, s', s.procs[q]);
    }
  }

  lemma LocalAdvance(s: State, s': State, r: nat)
    requires Local(s) && Grows(s, s') && NewOk(s, s', r)
    ensures Local(s')
  {
    RowsAdvance(s, s', r);
    SessionsAdvance(s, s', r);
    HistoriesAdvance(s, s', r);
    RequestsAdvance(s, s', r);
    forall c {:trigger s'.codes[c]} | 0 <= c < |s'.codes|
      ensures CodeOk(s', s'.codes[c])
    {
      if c < |s.codes| && s'.codes[c] == s.codes[c] {
        assert CodeOk(s, s.codes[c]);
      }
    }
    forall sid {:trigger s'.cache[sid]} | sid in s'.cache
      ensures Snapshot(s'.sessions, sid, s'.cache[sid])
    {
      if sid in s.cache && s'.cache[sid] == s.cache[sid] {
        assert Snapshot(s.sessions, sid, s.cache[sid]);
      }
    }
    forall id {:trigger s'.challenges[id]} | id in s'.challenges
      ensures ChallengeOk(s', s'.challenges[id])
    {
      if id in s.challenges && s'.challenges[id] == s.challenges[id] {
        assert ChallengeOk(s, s.challenges[id]);
      }
    }
  }

  /** Nothing gains a claim: rows are only demoted, no row, session, grant or change is added. */
  ghost predicate NoNewClaims(s: State, s': State, r: nat) {
    && |s'.tokens| == |s.tokens| && |s'.sessions| == |s.sessions|
    && s'.grants == s.grants && s'.changes == s.changes
    && (r in s'.procs ==> forall c :: ProcHolds(s'.procs[r], c) ==> r in s.procs && ProcHolds(s.procs[r], c))
  }

  /** A holder of a claim after a step that creates none held it before. */
  lemma KeptClaim(s: State, s': State, r: nat, h: Holder, c: Claim)
    requires Grows(s, s') && s'.procs - {r} == s.procs - {r} && NoNewClaims(s, s', r)
    requires Holds(s', h, c)
    ensures Holds(s, h, c)
  {
    match h
    case Row(i) => assert TokenGrows(s.tokens[i], s'.tokens[i]);
    case Request(q) =>
      if q != r {
        assert q in s'.procs - {r};
        assert (s'.procs - {r})[q] == s'.procs[q] && (s.procs - {r})[q] == s.procs[q];
      }
    case Session(j) => assert SessionGrows(s.sessions[j], s'.sessions[j]);
    case _ =>
  }

  /** A step that adds no row, session, grant or change and gives no request a new claim. */
  ghost predicate Quiet(s: State, s': State, r: nat) {
    && Grows(s, s') && NewOk(s, s', r) && NoNewClaims(s, s', r)
    && |s'.codes| == |s.codes| && |s'.resets| == |s.resets|
  }

  lemma ExistingStable(s: State, s': State, c: Claim)
    requires Grows(s, s') && Existing(s, c)
    ensures Existing(s', c)
  {
    if c.Slot? || c.RootOf? {
      var i :| 0 <= i < |s.tokens| && s.tokens[i].family == c.family;
      assert s'.tokens[i].family == c.family;
    }
  }

  /** What no event and no run undoes: tables grow, the invariant is kept, lapsed claims stay lapsed. */
  ghost predicate Kept(s: State, s': State) {
    Grows(s, s') && Inv(s') && forall c :: Lapsed(s, c) ==> Lapsed(s', c)
  }

  /** One event's effect; a token is active when it is inserted. */
  ghost predicate Good(s: State, s': State) {
    Kept(s, s') && forall i :: |s.tokens| <= i < |s'.tokens| ==> s'.tokens[i].status == Active
  }

  lemma QuietStep(s: State, s': State, r: nat)
    requires Inv(s) && Quiet(s, s', r)
    ensures Good(s, s')
  {
    forall c | Lapsed(s, c)
      ensures Lapsed(s', c)
    {
      ExistingStable(s, s', c);
      forall h | Holds(s', h, c)
        ensures false
      {
        KeptClaim(s, s', r, h, c);
      }
    }
    QuietInv(s, s', r);
  }

  lemma QuietInv(s: State, s': State, r: nat)
    requires Inv(s) && Quiet(s, s', r)
    ensures Inv(s')
  {
    LocalAdvance(s, s', r);
    forall h, h', c | Holds(s', h, c) && Holds(s', h', c)
      ensures h == h'
    {
      KeptClaim(s, s', r, h, c);
      KeptClaim(s, s', r, h', c);
    }
    assert forall i :: 0 <= i < |s.tokens| ==> s'.tokens[i].hash == s.tokens[i].hash;
    assert forall i :: 0 <= i < |s.codes| ==> s'.codes[i].hash == s.codes[i].hash;
    assert forall i :: 0 <= i < |s.resets| ==> s'.resets[i].hash == s.resets[i].hash;
  }

  /** The acting request moves on to p, or ends. */
  function Then(s: State, r: nat, p: Option<Proc>): State {
    if p.None? then Finish(s, r) else Goto(s, r, p.value)
  }

  ghost predicate MayContinue(s: State, r: nat, p: Option<Proc>) {
    && r in s.procs
    && (p.Some? ==> ProcOk(s, p.value) && forall c :: ProcHolds(p.value, c) ==> ProcHolds(s.procs[r], c))
  }

  lemma LocalQuiet(s: State, r: nat, p: Option<Proc>)
    requires MayContinue(s, r, p)
    ensures Quiet(s, Then(s, r, p), r)
  {
  }

  /** An UPDATE that revokes refresh tokens. */
  lemma RevokeGrows(s: State, s': State, w: TokenWhere)
    requires s' == s.(tokens := RevokeTokens(s.tokens, w), procs := s'.procs)
    ensures Grows(s, s')
  {
  }

  lemma RevokeQuiet(s: State, r: nat, w: TokenWhere, p: Option<Proc>)
    requires MayContinue(s, r, p)
    ensures Quiet(s, Then(s.(tokens := RevokeTokens(s.tokens, w)), r, p), r)
  {
    var m := s.(tokens := RevokeTokens(s.tokens, w));
    var s' := Then(m, r, p);
    RevokeGrows(s, s', w);
    if p.Some? {
      ProcStable(s, s', p.value);
    }
    assert s'.procs - {r} == s.procs - {r};
    assert NewOk(s, s', r);
  }

  /** An UPDATE that closes sessions. */
  lemma CloseQuiet(s: State, r: nat, w: SessionWhere, p: Option<Proc>)
    requires MayContinue(s, r, p)
    ensures Quiet(s, Then(s.(sessions := CloseSessions(s.sessions, w)), r, p), r)
  {
    var s' := Then(s.(sessions := CloseSessions(s.sessions, w)), r, p);
    assert Grows(s, s');
    if p.Some? {
      ProcStable(s, s', p.value);
    }
  }

  /** A write to the cached session or to the challenges in Redis. */
  lemma RedisGrows(s: State, s': State)
    requires s.challengeIds <= s'.challengeIds
    requires s' ==
      s.(cache := s'.cache, challenges := s'.challenges, challengeIds := s'.challengeIds, procs := s'.procs)
    ensures Grows(s, s')
  {
  }

  lemma RedisQuiet(s: State, r: nat, cache: map<nat, SessionRow>, challenges: map<nat, Challenge>, ids: set<nat>,
        p: Option<Proc>)
    requires MayContinue(s, r, p) && s.challengeIds <= ids
    requires forall sid {:trigger cache[sid]} :: sid in cache ==>
      (sid in s.cache && cache[sid] == s.cache[sid]) || Snapshot(s.sessions, sid, cache[sid])
    requires forall id {:trigger challenges[id]} :: id in challenges ==>
      (id in s.challenges && challenges[id] == s.challenges[id]) || ChallengeOk(s, challenges[id])
    ensures Quiet(s, Then(s.(cache := cache, challenges := challenges, challengeIds := ids), r, p), r)
  {
    var s' := Then(s.(cache := cache, challenges := challenges, challengeIds := ids), r, p);
    RedisGrows(s, s');
    if p.Some? {
      ProcStable(s, s', p.value);
    }
  }

  // Steps that create or pass on claims

  /** The holders a step of request r may give claims to. */
  predicate Mine(s: State, r: nat, h: Holder) {
    || h == Request(r) || h == Row(|s.tokens|) || h == Session(|s.sessions|)
    || h == Granted(|s.grants|) || h == Changed(|s.changes|)
  }

  lemma HeldExists(s: State, h: Holder, c: Claim)
    requires Local(s) && Holds(s, h, c)
    ensures Existing(s, c)
  {
    match h
    case Row(i) => assert RowOk(s, s.tokens[i]) && LinkOk(s.tokens, i);
    case Request(q) =>
      assert ProcOk(s, s.procs[q]);
      if c.Slot? {
        assert s.tokens[s.procs[q].presented].family == c.family;
      }
    case Granted(k) => assert GrantOk(s, s.grants[k]);
    case Session(j) => assert SessionOk(s, j, s.sessions[j]);
    case Changed(m) => assert s.changes[m] < |s.resets|;
  }

  ghost predicate OneMore(s: State, s': State, r: nat) {
    && |s'.tokens| <= |s.tokens| + 1 && |s'.sessions| <= |s.sessions| + 1
    && |s'.grants| <= |s.grants| + 1 && |s'.changes| <= |s.changes| + 1
    && s'.procs - {r} == s.procs - {r}
  }

  /** The other holders gain nothing. */
  lemma OthersKept(s: State, s': State, r: nat, h: Holder, c: Claim)
    requires Local(s) && Grows(s, s') && OneMore(s, s', r)
    requires !Mine(s, r, h) && Holds(s', h, c)
    ensures Holds(s, h, c)
  {
    match h
    case Row(i) => assert TokenGrows(s.tokens[i], s'.tokens[i]) && RowOk(s, s.tokens[i]);
    case Request(q) =>
      assert q in s'.procs - {r};
      assert (s'.procs - {r})[q] == s'.procs[q] && (s.procs - {r})[q] == s.procs[q];
    case Granted(k) => assert s'.grants[k] == s.grants[k];
    case Session(j) => assert SessionGrows(s.sessions[j], s'.sessions[j]);
    case Changed(m) => assert s'.changes[m] == s.changes[m];
  }

  /** Claim c is new, or its old holder is the acting request or has just lost it. */
  ghost predicate Accounted(s: State, s': State, r: nat, c: Claim) {
    !Existing(s, c) || exists h :: Holds(s, h, c) && (Mine(s, r, h) || !Holds(s', h, c))
  }

  /** What a step of request r that may add rows has to establish, claims aside. */
  ghost predicate Sound(s: State, s': State, r: nat) {
    Grows(s, s') && NewOk(s, s', r) && OneMore(s, s', r) && UniqueHashes(s')
  }

  lemma BusyStep(s: State, s': State, r: nat)
    requires Inv(s) && Sound(s, s', r)
    requires forall x, c :: Mine(s, r, x) && Holds(s', x, c) ==> Accounted(s, s', r, c)
    requires forall x, y, c :: Mine(s, r, x) && Mine(s, r, y) && Holds(s', x, c) && Holds(s', y, c) ==> x == y
    ensures Good(s, s')
  {
    LocalAdvance(s, s', r);
    forall c | Lapsed(s, c)
      ensures Lapsed(s', c)
    {
      ExistingStable(s, s', c);
      forall h | Holds(s', h, c)
        ensures false
      {
        if !Mine(s, r, h) {
          OthersKept(s, s', r, h, c);
        }
      }
    }
    forall h, h', c | Holds(s', h, c) && Holds(s', h', c)
      ensures h == h'
    {
      if !Mine(s, r, h) {
        OneHolder(s, s', r, h, h', c);
      } else if !Mine(s, r, h') {
        OneHolder(s, s', r, h', h, c);
      }
    }
  }

  lemma OneHolder(s: State, s': State, r: nat, h: Holder, h': Holder, c: Claim)
    requires Inv(s) && Grows(s, s') && OneMore(s, s', r)
    requires Mine(s, r, h') ==> Accounted(s, s', r, c)
    requires !Mine(s, r, h) && Holds(s', h, c) && Holds(s', h', c)
    ensures h == h'
  {
    OthersKept(s, s', r, h, c);
    if Mine(s, r, h') {
      HeldExists(s, h, c);
    } else {
      OthersKept(s, s', r, h', c);
    }
  }
}
