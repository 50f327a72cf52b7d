/** What each request can achieve from where it stands, exactly: which of them some run hands an access token. */
module Requests {
  import opened Basics
  import opened Scopes
  import opened Tables
  import opened Machine
  import opened Invariant
  import opened Preservation
  import opened Steps
  import opened Families
  import opened Sessions

  // A request is over when it ends; its number may be used again by a later one

  /** No new request takes the number r. */
  predicate NoArrival(es: seq<Event>, r: nat) {
    forall i :: 0 <= i < |es| ==> !(es[i].Arrive? && es[i].r == r)
  }

  predicate GrantTo(g: Grant, r: nat) { !g.ClientToken? && g.request == r }

  /** Some grant of s' that s lacks is request r's. */
  ghost predicate Granting(s: State, s': State, r: nat) {
    exists k :: |s.grants| <= k < |s'.grants| && GrantTo(s'.grants[k], r)
  }

  // Requests that will not be handed a token

  /** None of the statements to come hands out a token. */
  predicate Hopeless(p: Proc) { Revoking(p) || Ending(p) || p.DropChallenge? || p.SetAttempts? }

  predicate HopelessAt(s: State, r: nat) { r in s.procs ==> Hopeless(s.procs[r]) }

  lemma HopelessStep(s: State, r: nat, c: Choice)
    requires r in s.procs && Hopeless(s.procs[r])
    ensures var s' := Apply(s, Step(r, c)); HopelessAt(s', r) && s'.grants == s.grants
  {
    var p := s.procs[r];
    if Revoking(p) {
      TakesRevoking(s, r, p, c);
    } else if Ending(p) {
      TakesEnding(s, r, p, c);
    } else {
      TakesChallenging(s, r, p, c);
    }
  }

  /** Events of others neither move the request nor hand it a token. */
  lemma OthersLeave(s: State, e: Event, r: nat)
    requires Inv(s) && Actor(s, e) != r
    ensures var s' := Apply(s, e);
      && (r in s'.procs <==> r in s.procs) && (r in s.procs ==> s'.procs[r] == s.procs[r])
      && !Granting(s, s', r)
  {
    var s' := Apply(s, e);
    EventHonest(s, e, 0);
    OthersStay(s, s', Actor(s, e), r);
    if Granting(s, s', r) {
      var k :| |s.grants| <= k < |s'.grants| && GrantTo(s'.grants[k], r);
      OthersUnpaid(s, e, r, k);
    }
  }

  lemma OthersUnpaid(s: State, e: Event, r: nat, k: nat)
    requires Inv(s) && Actor(s, e) != r && |s.grants| <= k < |Apply(s, e).grants|
    ensures !GrantTo(Apply(s, e).grants[k], r)
  {
    var g := Apply(s, e).grants[k];
    if !g.ClientToken? {
      EventHonest(s, e, g.session);
      assert GrantFor(g, g.request, g.session);
    }
  }

  lemma HopelessEvent(s: State, e: Event, r: nat)
    requires Inv(s) && HopelessAt(s, r) && !(e.Arrive? && e.r == r)
    ensures HopelessAt(Apply(s, e), r) && !Granting(s, Apply(s, e), r)
  {
    if Actor(s, e) != r {
      OthersLeave(s, e, r);
    } else if e.Step? && r in s.procs {
      HopelessStep(s, r, e.c);
    }
  }

  lemma ShorterNoArrival(es: seq<Event>, r: nat)
    requires NoArrival(es, r) && |es| > 0
    ensures NoArrival(es[..|es| - 1], r)
  {
  }

  lemma {:induction false} HopelessRun(s: State, es: seq<Event>, r: nat)
    requires Inv(s) && HopelessAt(s, r) && NoArrival(es, r)
    ensures HopelessAt(Run(s, es), r) && !Granting(s, Run(s, es), r)
    decreases |es|
  {
    if |es| == 0 {
      RunNone(s);
    } else {
      var es', e := es[..|es| - 1], es[|es| - 1];
      ShorterNoArrival(es, r);
      HopelessRun(s, es', r);
      RunKept(s, es');
      RunLast(s, es);
      HopelessEvent(Run(s, es'), e, r);
      EventGood(Run(s, es'), e);
      StillNotGranting(s, Run(s, es'), Run(s, es), r);
    }
  }

  lemma StillNotGranting(s: State, m: State, s': State, r: nat)
    requires s.grants <= m.grants && m.grants <= s'.grants && !Granting(s, m, r) && !Granting(m, s', r)
    ensures !Granting(s, s', r)
  {
    forall k | |s.grants| <= k < |s'.grants|
      ensures !GrantTo(s'.grants[k], r)
    {
      assert k < |m.grants| ==> m.grants[k] == s'.grants[k];
    }
  }

  // A secret, a family id: there is always one that is new

  function Depth(t: Text): nat {
    match t case Raw(_) => 0 case Sha256(of) => 1 + Depth(of)
  }

  function Tower(n: nat): (t: Text)
    ensures Depth(t) == n
  {
    if n == 0 then Raw(0) else Sha256(Tower(n - 1))
  }

  lemma {:induction false} DeepestToken(t: seq<TokenRow>) returns (n: nat)
    ensures forall i :: 0 <= i < |t| ==> Depth(t[i].hash) <= n && t[i].family <= n
  {
    n := 0;
    if t != [] {
      var m := DeepestToken(t[..|t| - 1]);
      var last := t[|t| - 1];
      n := m + Depth(last.hash) + last.family;
    }
  }

  lemma {:induction false} DeepestCode(t: seq<CodeRow>) returns (n: nat)
    ensures forall i :: 0 <= i < |t| ==> Depth(t[i].hash) <= n
  {
    n := 0;
    if t != [] {
      var m := DeepestCode(t[..|t| - 1]);
      n := m + Depth(t[|t| - 1].hash);
    }
  }

  lemma {:induction false} DeepestReset(t: seq<ResetRow>) returns (n: nat)
    ensures forall i :: 0 <= i < |t| ==> Depth(t[i].hash) <= n
  {
    n := 0;
    if t != [] {
      var m := DeepestReset(t[..|t| - 1]);
      n := m + Depth(t[|t| - 1].hash);
    }
  }

  lemma SomethingNew(s: State, ok: bool) returns (c: Choice)
    ensures FreshSecret(s, c.secret) && FreshFamily(s, c.id) && c.ok == ok
  {
    var a := DeepestToken(s.tokens);
    var b := DeepestCode(s.codes);
    var d := DeepestReset(s.resets);
    c := Choice(Tower(a + b + d), a + 1, ok, {});
    assert Depth(Sha256(c.secret)) == a + b + d + 1;
  }

  // Runs in which only request r moves

  /** Only steps of r. */
  predicate Solo(es: seq<Event>, r: nat) { forall i :: 0 <= i < |es| ==> es[i].Step? && es[i].r == r }

  lemma SoloThen(s: State, es: seq<Event>, m: State, r: nat, c: Choice) returns (fs: seq<Event>)
    requires Run(s, es) == m && Solo(es, r)
    ensures Run(s, fs) == Apply(m, Step(r, c)) && Solo(fs, r)
  {
    RunThen(s, es, m, Step(r, c), Apply(m, Step(r, c)));
    fs := es + [Step(r, c)];
  }

  lemma SoloMore(s: State, es: seq<Event>, m: State, fs: seq<Event>, r: nat) returns (gs: seq<Event>)
    requires Run(s, es) == m && Solo(es, r) && Solo(fs, r)
    ensures Run(s, gs) == Run(m, fs) && Solo(gs, r)
  {
    RunMore(s, es, m, fs, Run(m, fs));
    gs := es + fs;
  }

  lemma SoloArrival(es: seq<Event>, r: nat)
    requires Solo(es, r)
    ensures NoArrival(es, r)
  {
  }

  lemma OpenIsSelected(s: State, r: nat, sid: nat, why: Purpose, c: Choice)
    requires Inv(s) && r in s.procs && s.procs[r] == GetCached(sid, why)
    requires sid < |s.sessions| && s.sessions[sid].status == Open
    ensures Apply(s, Step(r, c)) == Goto(s, r, SelectSession(sid, sid in s.cache, why))
  {
    TakesFinding(s, r, GetCached(sid, why), c);
    assert sid in s.cache ==> Snapshot(s.sessions, sid, s.cache[sid]);
  }

  lemma SelectedIsCached(s: State, r: nat, sid: nat, hit: bool, why: Purpose, c: Choice)
    requires r in s.procs && s.procs[r] == SelectSession(sid, hit, why) && sid < |s.sessions|
    ensures Apply(s, Step(r, c)) == Goto(s, r, SetCached(sid, s.sessions[sid], why))
  {
    TakesFinding(s, r, SelectSession(sid, hit, why), c);
  }

  lemma CachedIsFound(s: State, r: nat, sid: nat, row: SessionRow, why: Purpose, c: Choice)
    requires r in s.procs && s.procs[r] == SetCached(sid, row, why)
    ensures Apply(s, Step(r, c)) == Goto(s.(cache := s.cache[sid := row]), r, Resume(sid, Some(row), why))
  {
    TakesFinding(s, r, SetCached(sid, row, why), c);
  }

  lemma GotoTwice(s: State, r: nat, p: Proc, q: Proc)
    ensures Goto(Goto(s, r, p), r, q) == Goto(s, r, q)
  {
    assert s.procs[r := p][r := q] == s.procs[r := q];
  }

  /** A session read by a request alone: an open session is found open. */
  lemma FindsOpen(s: State, r: nat, sid: nat, why: Purpose) returns (es: seq<Event>, m: State)
    requires Inv(s) && r in s.procs && s.procs[r] == GetCached(sid, why)
    requires sid < |s.sessions| && s.sessions[sid].status == Open
    ensures Solo(es, r) && Run(s, es) == m
    ensures m == Goto(s.(cache := m.cache), r, Resume(sid, Some(s.sessions[sid]), why))
  {
    var c, row, hit := Choice(Raw(0), 0, false, {}), s.sessions[sid], sid in s.cache;
    var select, fill, resume := SelectSession(sid, hit, why), SetCached(sid, row, why), Resume(sid, Some(row), why);
    RunNone(s);
    OpenIsSelected(s, r, sid, why, c);
    es := SoloThen(s, [], s, r, c);
    SelectedIsCached(Goto(s, r, select), r, sid, hit, why, c);
    GotoTwice(s, r, select, fill);
    es := SoloThen(s, es, Goto(s, r, select), r, c);
    CachedIsFound(Goto(s, r, fill), r, sid, row, why, c);
    es := SoloThen(s, es, Goto(s, r, fill), r, c);
    m := Goto(s.(cache := s.cache[sid := row]), r, resume);
    GotoTwice(s.(cache := s.cache[sid := row]), r, fill, resume);
  }

  // The refresh_token grants

  /** The token can be exchanged now, at this endpoint and for this scope. */
  ghost predicate Refreshable(s: State, via: Endpoint, i: nat) {
    && i < |s.tokens| && s.tokens[i].status == Active && s.now < s.tokens[i].expiresAt
    && s.tokens[i].session < |s.sessions| && s.sessions[s.tokens[i].session].status == Open
    && (via.OAuthRefresh? ==>
          && s.tokens[i].client == Some(via.client)
          && forall w :: w in Words(via.requested) ==> w in Words(s.tokens[i].scope))
  }

  predicate PaysBy(g: Grant, r: nat, via: Endpoint, i: nat) {
    g.Refreshed? && g.request == r && g.via == via && g.presented == i
  }

  /** In some run the request is handed an access token for token i. */
  ghost predicate RefreshPays(s: State, r: nat, via: Endpoint, i: nat) {
    exists es, k :: NoArrival(es, r) && |s.grants| <= k < |Run(s, es).grants| && PaysBy(Run(s, es).grants[k], r, via, i)
  }

  /** The token is spent or expired, and the request is still to find out, or has. */
  predicate Missing(s: State, r: nat, via: Endpoint, i: nat) {
    && i < |s.tokens| && !(s.tokens[i].status == Active && s.now < s.tokens[i].expiresAt)
    && (HopelessAt(s, r) || (r in s.procs && s.procs[r] == UpdateRotated(via, s.tokens[i].hash)))
  }

  lemma MissingEvent(s: State, e: Event, r: nat, via: Endpoint, i: nat)
    requires Inv(s) && Missing(s, r, via, i) && !(e.Arrive? && e.r == r)
    ensures Missing(Apply(s, e), r, via, i) && !Granting(s, Apply(s, e), r)
  {
    EventGood(s, e);
    assert TokenGrows(s.tokens[i], Apply(s, e).tokens[i]);
    if HopelessAt(s, r) {
      HopelessEvent(s, e, r);
    } else if Actor(s, e) != r {
      OthersLeave(s, e, r);
    } else if e.Step? {
      DeadTokenIsRefused(s, r, via, i, e.c);
    }
  }

  lemma {:induction false} MissingRun(s: State, es: seq<Event>, r: nat, via: Endpoint, i: nat)
    requires Inv(s) && Missing(s, r, via, i) && NoArrival(es, r)
    ensures Missing(Run(s, es), r, via, i) && !Granting(s, Run(s, es), r)
    decreases |es|
  {
    if |es| == 0 {
      RunNone(s);
    } else {
      var es', e := es[..|es| - 1], es[|es| - 1];
      ShorterNoArrival(es, r);
      MissingRun(s, es', r, via, i);
      RunKept(s, es');
      RunLast(s, es);
      MissingEvent(Run(s, es'), e, r, via, i);
      EventGood(Run(s, es'), e);
      StillNotGranting(s, Run(s, es'), Run(s, es), r);
    }
  }

  lemma MissingIsUnpaid(s: State, es: seq<Event>, r: nat, via: Endpoint, i: nat, k: nat)
    requires Inv(s) && Missing(s, r, via, i) && NoArrival(es, r) && |s.grants| <= k < |Run(s, es).grants|
    ensures !PaysBy(Run(s, es).grants[k], r, via, i)
  {
    MissingRun(s, es, r, via, i);
    assert GrantTo(Run(s, es).grants[k], r) ==> Granting(s, Run(s, es), r);
  }

  /** What a grant says of the token it was handed out for. */
  lemma PaidWasAllowed(s: State, s': State, k: nat, r: nat, via: Endpoint, i: nat)
    requires Inv(s) && Kept(s, s') && i < |s.tokens| && k < |s'.grants| && PaysBy(s'.grants[k], r, via, i)
    ensures s'.grants[k].session == s.tokens[i].session && s.tokens[i].session < |s.sessions|
    ensures via.OAuthRefresh? ==>
      && s.tokens[i].client == Some(via.client)
      && forall w :: w in Words(via.requested) ==> w in Words(s.tokens[i].scope)
  {
    assert GrantOk(s', s'.grants[k]) && TokenGrows(s.tokens[i], s'.tokens[i]) && RowOk(s, s.tokens[i]);
  }

  lemma RefreshPaidOnlyIf(s: State, r: nat, via: Endpoint, i: nat, es: seq<Event>, k: nat)
    requires Inv(s) && i < |s.tokens| && r in s.procs && s.procs[r] == UpdateRotated(via, s.tokens[i].hash)
    requires NoArrival(es, r) && |s.grants| <= k < |Run(s, es).grants| && PaysBy(Run(s, es).grants[k], r, via, i)
    ensures Refreshable(s, via, i)
  {
    RunKept(s, es);
    PaidWasAllowed(s, Run(s, es), k, r, via, i);
    if !(s.tokens[i].status == Active && s.now < s.tokens[i].expiresAt) {
      MissingIsUnpaid(s, es, r, via, i, k);
    }
    if s.sessions[s.tokens[i].session].status == Closed {
      RevocationWins(s, es, s.tokens[i].session, k, r);
    }
  }

  /** The rotation of a request alone. */
  lemma RotatesAlone(s: State, r: nat, via: Endpoint, i: nat) returns (es: seq<Event>, m: State)
    requires Inv(s) && r in s.procs && i < |s.tokens| && s.procs[r] == UpdateRotated(via, s.tokens[i].hash)
    requires Refreshable(s, via, i)
    ensures Solo(es, r) && Run(s, es) == m && m.sessions == s.sessions && m.grants == s.grants
    ensures r in m.procs
    ensures m.procs[r] ==
      GetCached(s.tokens[i].session, ForRefresh(via, i, s.tokens[i].(status := Rotated), |s.tokens|))
  {
    var c := SomethingNew(s, false);
    var row := s.tokens[i].(status := Rotated);
    RunNone(s);
    ConsumesExactly(s, r, via, i, c);
    var s1 := Goto(s.(tokens := s.tokens[i := row]), r, InsertSuccessor(via, i, row));
    es := SoloThen(s, [], s, r, c);
    TakesRotating(s1, r, InsertSuccessor(via, i, row), c);
    assert FreshSecret(s1, c.secret);
    m := DoInsertSuccessor(s1, r, via, i, row, c.secret);
    es := SoloThen(s, es, s1, r, c);
  }

  /** The answer of a refresh that found its session open and may have its scope. */
  lemma AnswersAlone(s: State, r: nat, sid: nat, row: SessionRow, why: Purpose, c: Choice)
    requires r in s.procs && s.procs[r] == Resume(sid, Some(row), why) && why.ForRefresh? && row.status == Open
    requires why.via.OAuthRefresh? ==> forall w :: w in Words(why.via.requested) ==> w in Words(why.row.scope)
    ensures var s' := Apply(s, Step(r, c));
      |s'.grants| == |s.grants| + 1 && PaysBy(s'.grants[|s.grants|], r, why.via, why.presented)
  {
    TakesRotating(s, r, Resume(sid, Some(row), why), c);
    assert why.via.OAuthRefresh? ==> NarrowingAllowed(why.row.scope, why.via.requested);
  }

  lemma RefreshIsPaid(s: State, r: nat, via: Endpoint, i: nat)
    requires Inv(s) && i < |s.tokens| && r in s.procs && s.procs[r] == UpdateRotated(via, s.tokens[i].hash)
    requires Refreshable(s, via, i)
    ensures RefreshPays(s, r, via, i)
  {
    var c, sid := Choice(Raw(0), 0, false, {}), s.tokens[i].session;
    var es1, s1 := RotatesAlone(s, r, via, i);
    RunKept(s, es1);
    var why := s1.procs[r].why;
    var es2, s2 := FindsOpen(s1, r, sid, why);
    var es3 := SoloMore(s, es1, s1, es2, r);
    AnswersAlone(s2, r, sid, s1.sessions[sid], why, c);
    var es := SoloThen(s, es3, s2, r, c);
    SoloArrival(es, r);
    assert PaysBy(Run(s, es).grants[|s.grants|], r, via, i);
  }

  /**
   A refresh that is about to present a token is handed an access token for it, in some run, if and only
   if the token is active and not expired, its session is open and, at the OAuth endpoint, the client is
   its own and every scope word asked for is stored.
   */
  lemma RefreshPaysExactly(s: State, r: nat, via: Endpoint, i: nat)
    requires Inv(s) && i < |s.tokens| && r in s.procs && s.procs[r] == UpdateRotated(via, s.tokens[i].hash)
    ensures RefreshPays(s, r, via, i) <==> Refreshable(s, via, i)
  {
    if RefreshPays(s, r, via, i) {
      var es, k :|
        NoArrival(es, r) && |s.grants| <= k < |Run(s, es).grants| && PaysBy(Run(s, es).grants[k], r, via, i);
      RefreshPaidOnlyIf(s, r, via, i, es, k);
    }
    if Refreshable(s, via, i) {
      RefreshIsPaid(s, r, via, i);
    }
  }

  /** The first-party endpoint does pay: for any live token, whichever client it was issued to. */
  lemma FirstPartyPaysAnyClient(s: State, r: nat, i: nat)
    requires Inv(s) && i < |s.tokens| && r in s.procs && s.procs[r] == UpdateRotated(AuthRefresh, s.tokens[i].hash)
    requires s.tokens[i].status == Active && s.now < s.tokens[i].expiresAt
    requires s.tokens[i].session < |s.sessions| && s.sessions[s.tokens[i].session].status == Open
    ensures RefreshPays(s, r, AuthRefresh, i)
  {
    RefreshPaysExactly(s, r, AuthRefresh, i);
  }

  // Sign-ins: from the INSERT of the session, or of its first token, to the answer

  /** In some run, starting with its next statement, the request is handed the first tokens of the session. */
  ghost predicate SignInPays(s: State, r: nat, c: Choice, sid: nat, scope: string) {
    exists es, k :: SignInPaysBy(s, r, c, sid, scope, es, k)
  }

  ghost predicate SignInPaysBy(s: State, r: nat, c: Choice, sid: nat, scope: string, es: seq<Event>, k: nat) {
    var s' := Run(Apply(s, Step(r, c)), es);
    NoArrival(es, r) && |s.grants| <= k < |s'.grants| && s'.grants[k] == SignedIn(r, sid, scope)
  }

  lemma RootAlone(s: State, r: nat, sid: nat, user: nat, client: Option<nat>, origin: Origin, scope: string)
      returns (es: seq<Event>)
    requires r in s.procs && s.procs[r] == InsertRoot(sid, user, client, origin, scope)
    ensures Solo(es, r) && Run(s, es).grants == s.grants + [SignedIn(r, sid, scope)]
  {
    var c := SomethingNew(s, false);
    RunNone(s);
    TakesIssuing(s, r, InsertRoot(sid, user, client, origin, scope), c);
    es := SoloThen(s, [], s, r, c);
  }

  // The authorization_code grant

  /** The code is bound to this client and form, its challenge met, and it is neither consumed nor expired. */
  predicate Exchangeable(s: State, client: nat, form: CodeForm, i: nat) {
    && i < |s.codes| && s.codes[i].hash == Sha256(form.code)
    && s.codes[i].client == client && s.codes[i].redirect == form.redirect
    && (match s.codes[i].codeMethod
        case S256 => Sha256(form.verifier) == s.codes[i].challenge
        case Plain => form.verifier == s.codes[i].challenge)
    && s.codes[i].consumed.None? && s.now <= s.codes[i].expiresAt
  }

  /** The peek lets the request go on just then, and changes no table either way. */
  lemma PeekExactly(s: State, r: nat, c: Choice, client: nat, form: CodeForm, i: nat)
    requires Inv(s) && r in s.procs && s.procs[r] == PeekCode(client, form)
    requires i < |s.codes| && s.codes[i].hash == Sha256(form.code)
    ensures var s' := Apply(s, Step(r, c));
      if Exchangeable(s, client, form, i) then s' == Goto(s, r, SelectCode(client, form, i))
      else HopelessAt(s', r) && s'.grants == s.grants
  {
    assert CodeByHash(s.codes, Sha256(form.code)) == Some(i);
    TakesAuthorizing(s, r, PeekCode(client, form), c);
  }

  lemma SelectExactly(s: State, r: nat, c: Choice, client: nat, form: CodeForm, peeked: nat, i: nat)
    requires UniqueHashes(s) && r in s.procs && s.procs[r] == SelectCode(client, form, peeked)
    requires Exchangeable(s, client, form, i)
    ensures Apply(s, Step(r, c)) == Goto(s, r, ConsumeCode(client, form, i))
  {
    assert CodeByHash(s.codes, Sha256(form.code)) == Some(i);
    TakesAuthorizing(s, r, SelectCode(client, form, peeked), c);
  }

  /** The tables after the code has been exchanged by the request alone, before its session is inserted. */
  lemma ExchangeAlone(s: State, r: nat, client: nat, form: CodeForm, i: nat) returns (es: seq<Event>, m: State)
    requires Inv(s) && r in s.procs && s.procs[r] == SelectCode(client, form, i) && Exchangeable(s, client, form, i)
    ensures Solo(es, r) && Run(s, es) == m && m.grants == s.grants && m.sessions == s.sessions && r in m.procs
    ensures m.procs[r] == InsertSession(s.codes[i].user, Some(client), FromCode(i), s.codes[i].scope)
  {
    var c := Choice(Raw(0), 0, false, {});
    RunNone(s);
    SelectExactly(s, r, c, client, form, i, i);
    es := SoloThen(s, [], s, r, c);
    var s1 := Goto(s, r, ConsumeCode(client, form, i));
    TakesIssuing(s1, r, ConsumeCode(client, form, i), c);
    m := DoConsumeCode(s1, r, client, form, i);
    es := SoloThen(s, es, s1, r, c);
  }

  lemma ExchangeIsPaid(s: State, r: nat, c: Choice, client: nat, form: CodeForm, i: nat)
    requires Inv(s) && r in s.procs && s.procs[r] == PeekCode(client, form) && Exchangeable(s, client, form, i)
    ensures SignInPays(s, r, c, |s.sessions|, s.codes[i].scope)
  {
    PeekExactly(s, r, c, client, form, i);
    EventGood(s, Step(r, c));
    var s1 := Goto(s, r, SelectCode(client, form, i));
    var es1, s2 := ExchangeAlone(s1, r, client, form, i);
    var es2 := SessionAlone(s2, r, s.codes[i].user, client, i, s.codes[i].scope);
    var es := SoloMore(s1, es1, s2, es2, r);
    SoloPays(s, r, c, s1, es, |s.sessions|, s.codes[i].scope);
  }

  /** The new session of a code, and its first token. */
  lemma SessionAlone(s: State, r: nat, user: nat, client: nat, code: nat, scope: string) returns (es: seq<Event>)
    requires r in s.procs && s.procs[r] == InsertSession(user, Some(client), FromCode(code), scope)
    ensures Solo(es, r) && Run(s, es).grants == s.grants + [SignedIn(r, |s.sessions|, scope)]
  {
    var c := Choice(Raw(0), 0, false, {});
    RunNone(s);
    TakesIssuing(s, r, InsertSession(user, Some(client), FromCode(code), scope), c);
    var s1 := DoInsertSession(s, r, user, Some(client), FromCode(code), scope, false);
    var es1 := SoloThen(s, [], s, r, c);
    var es2 := RootAlone(s1, r, |s.sessions|, user, Some(client), FromCode(code), scope);
    es := SoloMore(s, es1, s1, es2, r);
  }

  lemma SoloPays(s: State, r: nat, c: Choice, s1: State, es: seq<Event>, sid: nat, scope: string)
    requires s1 == Apply(s, Step(r, c)) && Solo(es, r) && Run(s1, es).grants == s.grants + [SignedIn(r, sid, scope)]
    ensures SignInPays(s, r, c, sid, scope)
  {
    SoloArrival(es, r);
    assert SignInPaysBy(s, r, c, sid, scope, es, |s.grants|);
  }

  /** Some run, starting with its next statement, hands the request a token. */
  ghost predicate Paying(s: State, r: nat, c: Choice) {
    exists es :: NoArrival(es, r) && Granting(s, Run(Apply(s, Step(r, c)), es), r)
  }

  lemma HopelessIsUnpaid(s: State, r: nat, c: Choice)
    requires Inv(s) && r in s.procs
    requires HopelessAt(Apply(s, Step(r, c)), r) && Apply(s, Step(r, c)).grants == s.grants
    ensures !Paying(s, r, c)
  {
    EventGood(s, Step(r, c));
    var s1 := Apply(s, Step(r, c));
    forall es | NoArrival(es, r)
      ensures !Granting(s, Run(s1, es), r)
    {
      HopelessRun(s1, es, r);
      assert Granting(s, Run(s1, es), r) ==> Granting(s1, Run(s1, es), r);
    }
  }

  lemma SignInIsGranting(s: State, r: nat, c: Choice, sid: nat, scope: string)
    requires SignInPays(s, r, c, sid, scope)
    ensures Paying(s, r, c)
  {
    var es, k :| SignInPaysBy(s, r, c, sid, scope, es, k);
    SignInGrants(s, Run(Apply(s, Step(r, c)), es), r, sid, scope, k);
  }

  lemma SignInGrants(s: State, s': State, r: nat, sid: nat, scope: string, k: nat)
    requires |s.grants| <= k < |s'.grants| && s'.grants[k] == SignedIn(r, sid, scope)
    ensures Granting(s, s', r)
  {
    assert GrantTo(s'.grants[k], r);
  }

  lemma UnknownCodeIsHopeless(s: State, r: nat, c: Choice, client: nat, form: CodeForm)
    requires r in s.procs && s.procs[r] == PeekCode(client, form)
    requires forall i :: 0 <= i < |s.codes| ==> s.codes[i].hash != Sha256(form.code)
    ensures HopelessAt(Apply(s, Step(r, c)), r) && Apply(s, Step(r, c)).grants == s.grants
  {
    TakesAuthorizing(s, r, PeekCode(client, form), c);
  }

  /**
   A request that is about to look a code up is handed tokens, in some run, if and only if there is a
   code with this hash, issued to this client for this redirect URI, whose challenge the verifier meets,
   and which is neither consumed nor expired; the tokens are then for a new session with the code's scope.
   */
  lemma ExchangePaysExactly(s: State, r: nat, c: Choice, client: nat, form: CodeForm)
    requires Inv(s) && r in s.procs && s.procs[r] == PeekCode(client, form)
    ensures Paying(s, r, c) <==> exists i: nat :: Exchangeable(s, client, form, i)
    ensures forall i: nat :: Exchangeable(s, client, form, i) ==> SignInPays(s, r, c, |s.sessions|, s.codes[i].scope)
  {
    forall i: nat | Exchangeable(s, client, form, i)
      ensures SignInPays(s, r, c, |s.sessions|, s.codes[i].scope) && Paying(s, r, c)
    {
      ExchangeIsPaid(s, r, c, client, form, i);
      SignInIsGranting(s, r, c, |s.sessions|, s.codes[i].scope);
    }
    if !exists i: nat :: Exchangeable(s, client, form, i) {
      UnexchangeableIsUnpaid(s, r, c, client, form);
    }
  }

  lemma UnexchangeableIsUnpaid(s: State, r: nat, c: Choice, client: nat, form: CodeForm)
    requires Inv(s) && r in s.procs && s.procs[r] == PeekCode(client, form)
    requires forall i: nat :: !Exchangeable(s, client, form, i)
    ensures !Paying(s, r, c)
  {
    if i: nat :| i < |s.codes| && s.codes[i].hash == Sha256(form.code) {
      PeekExactly(s, r, c, client, form, i);
    } else {
      UnknownCodeIsHopeless(s, r, c, client, form);
    }
    HopelessIsUnpaid(s, r, c);
  }

  // The second factor

  /** The challenge is there, has been failed less than three times, and is for an open session. */
  predicate Answerable(s: State, id: nat) {
    && id in s.challenges && s.challenges[id].attempts < 3
    && s.challenges[id].session < |s.sessions| && s.sessions[s.challenges[id].session].status == Open
  }

  /** On the way from a challenge for the session to its first token, or hopeless. */
  predicate Completing(p: Proc, sid: nat) {
    || Hopeless(p)
    || ((p.CheckCode? || p.PassSession? || p.DelChallenge?) && p.seen.session == sid)
    || ((Finding(p) || p.Resume?) && p.session == sid && p.why.ForMfa?)
    || (p.InsertRoot? && p.session == sid)
  }

  predicate CompletingAt(s: State, r: nat, sid: nat) { r in s.procs ==> Completing(s.procs[r], sid) }

  /** A grant s' has and s lacks is for another request or for this session. */
  ghost predicate GrantsFor(s: State, s': State, r: nat, sid: nat) {
    forall k :: |s.grants| <= k < |s'.grants| && GrantTo(s'.grants[k], r) ==> GrantFor(s'.grants[k], r, sid)
  }

  lemma CompletingStep(s: State, r: nat, c: Choice, sid: nat)
    requires r in s.procs && Completing(s.procs[r], sid)
    ensures var s' := Apply(s, Step(r, c)); CompletingAt(s', r, sid) && GrantsFor(s, s', r, sid)
  {
    var p := s.procs[r];
    if Hopeless(p) {
      HopelessStep(s, r, c);
    } else if Challenging(p) {
      TakesChallenging(s, r, p, c);
    } else if Finding(p) {
      TakesFinding(s, r, p, c);
    } else if p.Resume? {
      TakesRotating(s, r, p, c);
    } else {
      TakesIssuing(s, r, p, c);
    }
  }

  lemma CompletingEvent(s: State, e: Event, r: nat, sid: nat)
    requires Inv(s) && CompletingAt(s, r, sid) && !(e.Arrive? && e.r == r)
    ensures CompletingAt(Apply(s, e), r, sid) && GrantsFor(s, Apply(s, e), r, sid)
  {
    if Actor(s, e) != r {
      OthersLeave(s, e, r);
      assert !Granting(s, Apply(s, e), r);
    } else if e.Step? && r in s.procs {
      CompletingStep(s, r, e.c, sid);
    }
  }

  lemma {:induction false} CompletingRun(s: State, es: seq<Event>, r: nat, sid: nat)
    requires Inv(s) && CompletingAt(s, r, sid) && NoArrival(es, r)
    ensures CompletingAt(Run(s, es), r, sid) && GrantsFor(s, Run(s, es), r, sid)
    decreases |es|
  {
    if |es| == 0 {
      RunNone(s);
    } else {
      var es', e := es[..|es| - 1], es[|es| - 1];
      ShorterNoArrival(es, r);
      CompletingRun(s, es', r, sid);
      RunKept(s, es');
      RunLast(s, es);
      CompletingEvent(Run(s, es'), e, r, sid);
      EventGood(Run(s, es'), e);
      GrantsForMore(s, Run(s, es'), Run(s, es), r, sid);
    }
  }

  lemma GrantsForMore(s: State, m: State, s': State, r: nat, sid: nat)
    requires s.grants <= m.grants && m.grants <= s'.grants && GrantsFor(s, m, r, sid) && GrantsFor(m, s', r, sid)
    ensures GrantsFor(s, s', r, sid)
  {
    forall k | |s.grants| <= k < |s'.grants| && GrantTo(s'.grants[k], r)
      ensures GrantFor(s'.grants[k], r, sid)
    {
      assert k < |m.grants| ==> m.grants[k] == s'.grants[k];
    }
  }

  /** How the lookup of a challenge goes on. */
  lemma LookupExactly(s: State, r: nat, c: Choice, id: nat)
    requires r in s.procs && s.procs[r] == GetChallenge(id)
    ensures Apply(s, Step(r, c)) ==
      if id !in s.challenges then Finish(s, r)
      else if s.challenges[id].attempts < 3 then Goto(s, r, CheckCode(id, s.challenges[id]))
      else Goto(s, r, DropChallenge(id))
  {
    TakesChallenging(s, r, GetChallenge(id), c);
  }

  lemma UnanswerableIsUnpaid(s: State, r: nat, c: Choice, id: nat)
    requires Inv(s) && r in s.procs && s.procs[r] == GetChallenge(id) && !Answerable(s, id)
    ensures !Paying(s, r, c)
  {
    LookupExactly(s, r, c, id);
    if id in s.challenges && s.challenges[id].attempts < 3 {
      assert ChallengeOk(s, s.challenges[id]);
      ClosedIsUnpaid(s, r, c, id);
    } else {
      HopelessIsUnpaid(s, r, c);
    }
  }

  /** The session of the challenge was closed before the lookup. */
  lemma ClosedIsUnpaid(s: State, r: nat, c: Choice, id: nat)
    requires Inv(s) && r in s.procs && id in s.challenges
    requires Apply(s, Step(r, c)) == Goto(s, r, CheckCode(id, s.challenges[id]))
    requires ClosedSession(s, s.challenges[id].session)
    ensures !Paying(s, r, c)
  {
    EventGood(s, Step(r, c));
    var s1, sid := Apply(s, Step(r, c)), s.challenges[id].session;
    forall es | NoArrival(es, r)
      ensures !Granting(s, Run(s1, es), r)
    {
      CompletingRun(s1, es, r, sid);
      forall k | |s.grants| <= k < |Run(s1, es).grants|
        ensures !GrantTo(Run(s1, es).grants[k], r)
      {
        ClosedNeverPays(s1, es, r, sid, k);
      }
    }
  }

  lemma ClosedNeverPays(s: State, es: seq<Event>, r: nat, sid: nat, k: nat)
    requires Inv(s) && ClosedSession(s, sid) && r in s.procs && !PastRead(s.procs[r], sid)
    requires |s.grants| <= k < |Run(s, es).grants| && GrantsFor(s, Run(s, es), r, sid)
    ensures !GrantTo(Run(s, es).grants[k], r)
  {
    if GrantFor(Run(s, es).grants[k], r, sid) {
      RevocationWins(s, es, sid, k, r);
    }
  }

  /** A right code, and the challenge is gone, by the request alone. */
  lemma PassesAlone(s: State, r: nat, id: nat, seen: Challenge) returns (es: seq<Event>, m: State)
    requires r in s.procs && s.procs[r] == CheckCode(id, seen) && seen.session < |s.sessions|
    ensures Solo(es, r) && Run(s, es) == m && m.grants == s.grants && r in m.procs
    ensures m.procs[r] == GetCached(seen.session, ForMfa(id)) && |m.sessions| == |s.sessions|
    ensures m.sessions[seen.session] == s.sessions[seen.session].(mfaPassed := true)
  {
    var c := Choice(Raw(0), 0, true, {});
    RunNone(s);
    TakesChallenging(s, r, CheckCode(id, seen), c);
    es := SoloThen(s, [], s, r, c);
    var s1, s2 := DoCheckCode(s, r, id, seen, true), DoPassSession(DoCheckCode(s, r, id, seen, true), r, id, seen);
    TakesChallenging(s1, r, PassSession(id, seen), c);
    es := SoloThen(s, es, s1, r, c);
    TakesChallenging(s2, r, DelChallenge(id, seen), c);
    es := SoloThen(s, es, s2, r, c);
    m := DoDelChallenge(s2, r, id, seen);
    PassedState(s, r, id, seen);
  }

  lemma PassedState(s: State, r: nat, id: nat, seen: Challenge)
    requires seen.session < |s.sessions|
    ensures var m := DoDelChallenge(DoPassSession(DoCheckCode(s, r, id, seen, true), r, id, seen), r, id, seen);
      && m.grants == s.grants && r in m.procs && m.procs[r] == GetCached(seen.session, ForMfa(id))
      && m.sessions == s.sessions[seen.session := s.sessions[seen.session].(mfaPassed := true)]
  {
  }

  /** The session is found open, and its first token inserted. */
  lemma IssuesAlone(s: State, r: nat, sid: nat, id: nat, admin: bool) returns (es: seq<Event>)
    requires Inv(s) && r in s.procs && s.procs[r] == GetCached(sid, ForMfa(id))
    requires sid < |s.sessions| && s.sessions[sid].status == Open
    ensures Solo(es, r) && Run(s, es).grants == s.grants + [SignedIn(r, sid, DefaultScope(admin))]
  {
    var c, row := Choice(Raw(0), 0, admin, {}), s.sessions[sid];
    var es1, s1 := FindsOpen(s, r, sid, ForMfa(id));
    TakesRotating(s1, r, Resume(sid, Some(row), ForMfa(id)), c);
    var s2 := DoResume(s1, r, Some(row), sid, ForMfa(id), admin);
    var es2 := SoloThen(s, es1, s1, r, c);
    var es3 := RootAlone(s2, r, sid, row.user, None, row.origin, DefaultScope(admin));
    es := SoloMore(s, es2, s2, es3, r);
  }

  lemma AnswerIsPaid(s: State, r: nat, c: Choice, id: nat, admin: bool)
    requires Inv(s) && r in s.procs && s.procs[r] == GetChallenge(id) && Answerable(s, id)
    ensures SignInPays(s, r, c, s.challenges[id].session, DefaultScope(admin))
  {
    var seen := s.challenges[id];
    LookupExactly(s, r, c, id);
    EventGood(s, Step(r, c));
    var s1 := Apply(s, Step(r, c));
    var es1, s2 := PassesAlone(s1, r, id, seen);
    RunKept(s1, es1);
    var es2 := IssuesAlone(s2, r, seen.session, id, admin);
    var es := SoloMore(s1, es1, s2, es2, r);
    SoloPays(s, r, c, s1, es, seen.session, DefaultScope(admin));
  }

  /**
   A request that is about to look a challenge up is handed tokens, in some run, if and only if the
   challenge is there, was failed less than three times, and its session is open; the tokens are then for
   that session with the default scope of the user's roles.
   */
  lemma ChallengePaysExactly(s: State, r: nat, c: Choice, id: nat)
    requires Inv(s) && r in s.procs && s.procs[r] == GetChallenge(id)
    ensures Paying(s, r, c) <==> Answerable(s, id)
    ensures Answerable(s, id) ==>
      forall admin :: SignInPays(s, r, c, s.challenges[id].session, DefaultScope(admin))
  {
    if Answerable(s, id) {
      forall admin: bool
        ensures SignInPays(s, r, c, s.challenges[id].session, DefaultScope(admin))
      {
        AnswerIsPaid(s, r, c, id, admin);
      }
      AnswerIsPaid(s, r, c, id, true);
      SignInIsGranting(s, r, c, s.challenges[id].session, DefaultScope(true));
    } else {
      UnanswerableIsUnpaid(s, r, c, id);
    }
  }

  // Clients

  /**
   What authorize asks for: an enabled client with this redirect URI among its own, no scope word it is
   not allowed, the S256 method if it requires PKCE, and a user.
   */
  ghost predicate AllowedTo(clients: seq<ClientRow>, f: AuthorizeForm) {
    && f.user.Some? && f.client < |clients| && clients[f.client].enabled
    && f.redirect in clients[f.client].redirects && (clients[f.client].requirePkce ==> f.codeMethod == S256)
    && forall w :: w in Words(f.scope) ==> w in clients[f.client].allowedScopes
  }

  /** The code row that binds the code to what was asked. */
  function BoundRow(f: AuthorizeForm, secret: Text, now: int): CodeRow
    requires f.user.Some?
  {
    CodeRow(Sha256(secret), f.client, f.user.value, f.redirect, f.scope, f.challenge, f.codeMethod,
            now + AUTHORIZATION_CODE_TTL, None)
  }

  lemma AuthorizeDecides(s: State, r: nat, c: Choice, f: AuthorizeForm)
    requires r in s.procs && s.procs[r] == SelectAuthorizingClient(f)
    ensures Apply(s, Step(r, c)) ==
      if AllowedTo(s.clients, f) && c.ok then Goto(s, r, InsertCode(f, f.user.value)) else Finish(s, r)
  {
    TakesAuthorizing(s, r, SelectAuthorizingClient(f), c);
    if f.client < |s.clients| {
      var allowed := s.clients[f.client].allowedScopes;
      assert Within(Words(f.scope), allowed) <==> forall w :: w in Words(f.scope) ==> w in allowed;
    }
  }

  /**
   An authorize request with a well-formed challenge and an active user is issued a code if and only if
   that holds, and the code is bound to what was asked; otherwise it ends and changes nothing.
   */
  lemma AuthorizeIssuesExactly(s: State, r: nat, c: Choice, f: AuthorizeForm) returns (d: Choice)
    requires r in s.procs && s.procs[r] == SelectAuthorizingClient(f)
    ensures var s' := Apply(Apply(s, Step(r, c)), Step(r, d));
      if AllowedTo(s.clients, f) && c.ok then s' == Finish(s, r).(codes := s.codes + [BoundRow(f, d.secret, s.now)])
      else s' == Finish(s, r)
  {
    d := SomethingNew(s, false);
    AuthorizeDecides(s, r, c, f);
    if AllowedTo(s.clients, f) && c.ok {
      var s1 := Goto(s, r, InsertCode(f, f.user.value));
      TakesIssuing(s1, r, InsertCode(f, f.user.value), d);
      assert FreshSecret(s1, d.secret);
      assert s1.procs - {r} == s.procs - {r};
    } else {
      assert (s.procs - {r}) - {r} == s.procs - {r};
    }
  }

  /** What the token endpoint asks of a client: enabled, and its secret if it is confidential, none if not. */
  predicate Authentic(clients: seq<ClientRow>, client: nat, secret: Option<Text>) {
    && client < |clients| && clients[client].enabled
    && if clients[client].confidential then secret.Some? && clients[client].secretHash == Some(Sha256(secret.value))
       else secret.None?
  }

  /** And for a token of its own: registered for the grant, with its secret, for scope words it is allowed. */
  ghost predicate Credentialed(clients: seq<ClientRow>, client: nat, secret: Option<Text>, scope: string) {
    && Authentic(clients, client, secret) && clients[client].confidential
    && clients[client].clientCredentials && !clients[client].noSecretAuth
    && Words(scope) != [] && forall w :: w in Words(scope) ==> w in clients[client].allowedScopes
  }

  /** The token endpoint lets a client go on to its code or its refresh token just if it is authentic. */
  lemma TokenEndpointAdmits(s: State, r: nat, c: Choice, client: nat, secret: Option<Text>, grant: TokenForm)
    requires r in s.procs && s.procs[r] == SelectClient(client, secret, grant) && !grant.CredentialsGrant?
    ensures Apply(s, Step(r, c)) ==
      if Authentic(s.clients, client, secret)
      then Goto(s, r, if grant.CodeGrant? then PeekCode(client, grant.form)
                      else UpdateRotated(OAuthRefresh(client, grant.scope), Sha256(grant.token)))
      else Finish(s, r)
  {
    TakesRotating(s, r, SelectClient(client, secret, grant), c);
  }

  /** It hands a client a token of its own just if it is entitled to one, for exactly the words asked for. */
  lemma CredentialsPayExactly(s: State, r: nat, c: Choice, client: nat, secret: Option<Text>, scope: string)
    requires r in s.procs && s.procs[r] == SelectClient(client, secret, CredentialsGrant(scope))
    ensures var s' := Apply(s, Step(r, c));
      if Credentialed(s.clients, client, secret, scope)
      then |s'.grants| == |s.grants| + 1 && s'.grants[|s.grants|].ClientToken?
           && s'.grants[|s.grants|].client == client && Words(s'.grants[|s.grants|].scope) == Words(scope)
      else s' == Finish(s, r)
  {
    TakesRotating(s, r, SelectClient(client, secret, CredentialsGrant(scope)), c);
    SplitJoin(Words(scope));
    if client < |s.clients| {
      var allowed := s.clients[client].allowedScopes;
      assert Within(Words(scope), allowed) <==> forall w :: w in Words(scope) ==> w in allowed;
    }
  }

  // What an administrator changes

  predicate NeverEnabled(es: seq<Event>, client: nat) {
    forall i :: 0 <= i < |es| ==> es[i] != Enable(client, true)
  }

  lemma {:induction false} StaysDisabled(s: State, es: seq<Event>, client: nat)
    requires Inv(s) && client < |s.clients| && !s.clients[client].enabled && NeverEnabled(es, client)
    ensures client < |Run(s, es).clients| && !Run(s, es).clients[client].enabled
    decreases |es|
  {
    if |es| == 0 {
      RunNone(s);
    } else {
      var es', e := es[..|es| - 1], es[|es| - 1];
      StaysDisabled(s, es', client);
      RunLast(s, es);
      EnabledStep(Run(s, es'), e, client);
    }
  }

  lemma EnabledStep(s: State, e: Event, client: nat)
    requires client < |s.clients| && !s.clients[client].enabled && e != Enable(client, true)
    ensures client < |Apply(s, e).clients| && !Apply(s, e).clients[client].enabled
  {
    if e.Step? && e.r in s.procs {
      ClientsUntouched(s, e.r, s.procs[e.r], e.c);
    }
  }

  /** No statement of a request writes the clients table. */
  lemma ClientsUntouched(s: State, r: nat, p: Proc, c: Choice)
    ensures StepProc(s, r, p, c).clients == s.clients
  {
    if Rotating(p) {
      RotatingClients(s, r, p, c);
    } else if Revoking(p) || Ending(p) {
      RevokingClients(s, r, p, c);
    } else if Finding(p) || Authorizing(p) {
      FindingClients(s, r, p, c);
    } else if Challenging(p) {
      ChallengingClients(s, r, p, c);
    } else {
      IssuingClients(s, r, p, c);
    }
  }

  lemma RotatingClients(s: State, r: nat, p: Proc, c: Choice)
    requires Rotating(p)
    ensures StepRotating(s, r, p, c).clients == s.clients
  {
  }

  lemma RevokingClients(s: State, r: nat, p: Proc, c: Choice)
    requires Revoking(p) || Ending(p)
    ensures Revoking(p) ==> StepRevoking(s, r, p, c).clients == s.clients
    ensures Ending(p) ==> StepEnding(s, r, p, c).clients == s.clients
  {
  }

  lemma FindingClients(s: State, r: nat, p: Proc, c: Choice)
    requires Finding(p) || Authorizing(p)
    ensures Finding(p) ==> StepFinding(s, r, p, c).clients == s.clients
    ensures Authorizing(p) ==> StepAuthorizing(s, r, p, c).clients == s.clients
  {
  }

  lemma ChallengingClients(s: State, r: nat, p: Proc, c: Choice)
    requires Challenging(p)
    ensures StepChallenging(s, r, p, c).clients == s.clients
  {
  }

  lemma IssuingClients(s: State, r: nat, p: Proc, c: Choice)
    requires Issuing(p)
    ensures StepIssuing(s, r, p, c).clients == s.clients
  {
  }

  predicate NeverRotated(es: seq<Event>, client: nat) {
    forall i :: 0 <= i < |es| ==> !(es[i].RotateSecret? && es[i].id == client)
  }

  lemma {:induction false} KeepsSecret(s: State, es: seq<Event>, client: nat)
    requires Inv(s) && client < |s.clients| && NeverRotated(es, client)
    ensures client < |Run(s, es).clients| && Run(s, es).clients[client].secretHash == s.clients[client].secretHash
    ensures Run(s, es).clients[client].confidential == s.clients[client].confidential
    decreases |es|
  {
    if |es| == 0 {
      RunNone(s);
    } else {
      var es', e := es[..|es| - 1], es[|es| - 1];
      KeepsSecret(s, es', client);
      RunLast(s, es);
      SecretStep(Run(s, es'), e, client);
    }
  }

  lemma SecretStep(s: State, e: Event, client: nat)
    requires client < |s.clients| && !(e.RotateSecret? && e.id == client)
    ensures client < |Apply(s, e).clients|
    ensures Apply(s, e).clients[client].secretHash == s.clients[client].secretHash
    ensures Apply(s, e).clients[client].confidential == s.clients[client].confidential
  {
    if e.Step? && e.r in s.procs {
      ClientsUntouched(s, e.r, s.procs[e.r], e.c);
    }
  }

  /** Once a confidential client's secret is replaced, and until it is again, that secret and no other is accepted. */
  lemma OnlyTheNewSecret(s: State, client: nat, latest: Text, es: seq<Event>, secret: Option<Text>)
    requires Inv(s) && client < |s.clients| && s.clients[client].confidential && NeverRotated(es, client)
    ensures var m := Run(Apply(s, RotateSecret(client, Sha256(latest))), es);
      && client < |m.clients|
      && (Authentic(m.clients, client, secret) <==> m.clients[client].enabled && secret == Some(latest))
  {
    EventGood(s, RotateSecret(client, Sha256(latest)));
    KeepsSecret(Apply(s, RotateSecret(client, Sha256(latest))), es, client);
  }

  /**
   Once an administrator has disabled a client, and until one enables it again, authorize and the token
   endpoint refuse it, whatever it presents.
   */
  lemma DisabledClientIsRefused(s: State, es: seq<Event>, client: nat, r: nat, c: Choice)
    requires Inv(s) && client < |s.clients| && NeverEnabled(es, client)
    requires var m := Run(Apply(s, Enable(client, false)), es);
      && r in m.procs
      && ((m.procs[r].SelectClient? && m.procs[r].clientId == client)
          || (m.procs[r].SelectAuthorizingClient? && m.procs[r].request.client == client))
    ensures var m := Run(Apply(s, Enable(client, false)), es); Apply(m, Step(r, c)) == Finish(m, r)
  {
    EventGood(s, Enable(client, false));
    StaysDisabled(Apply(s, Enable(client, false)), es, client);
    var m := Run(Apply(s, Enable(client, false)), es);
    var p := m.procs[r];
    if p.SelectAuthorizingClient? {
      AuthorizeDecides(m, r, c, p.request);
    } else if p.grant.CredentialsGrant? {
      CredentialsPayExactly(m, r, c, client, p.secret, p.grant.scope);
    } else {
      TokenEndpointAdmits(m, r, c, client, p.secret, p.grant);
    }
  }
}
