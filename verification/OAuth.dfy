/** Authorization codes, PKCE, scopes and code replay over whole runs. */
module OAuth {
  import opened Basics
  import opened Scopes
  import opened Tables
  import opened Machine
  import opened Invariant
  import opened Preservation
  import opened Steps
  import opened Families

  // Single use

  /** The sessions a code has produced. */
  function SessionsOf(s: State, code: nat): set<nat> {
    set j | 0 <= j < |s.sessions| && s.sessions[j].origin == FromCode(code)
  }

  /** The families rooted in sessions a code has produced. */
  function RootsOf(s: State, code: nat): set<nat> {
    set i | 0 <= i < |s.tokens| && s.tokens[i].previous.None? && s.tokens[i].session in SessionsOf(s, code)
  }

  /** In every interleaving a code produces at most one session and at most one family. */
  lemma CodeIsSingleUse(s: State, code: nat)
    requires Reachable(s)
    ensures |SessionsOf(s, code)| <= 1 && |RootsOf(s, code)| <= 1
  {
    ReachableSound(s);
    forall i, j | i in SessionsOf(s, code) && j in SessionsOf(s, code)
      ensures i == j
    {
      assert Holds(s, Session(i), CodeUse(code)) && Holds(s, Session(j), CodeUse(code));
    }
    forall i, j | i in RootsOf(s, code) && j in RootsOf(s, code)
      ensures i == j
    {
      var sid := s.tokens[i].session;
      assert Holds(s, Row(i), RootIn(sid)) && Holds(s, Row(j), RootIn(sid));
    }
    AtMostOne(SessionsOf(s, code));
    AtMostOne(RootsOf(s, code));
  }

  /** A code that produced a session was consumed with its own client, redirect URI and a matching verifier. */
  lemma ExchangeWasBound(s: State, j: nat)
    requires Reachable(s)
    requires j < |s.sessions| && s.sessions[j].origin.FromCode?
    ensures var row := s.sessions[j];
      && row.origin.code < |s.codes|
      && var code := s.codes[row.origin.code];
      && code.consumed.Some?
      && code.consumed.value.client == code.client && code.consumed.value.redirect == code.redirect
      && Matches(code.consumed.value.verifier, code.challenge, code.codeMethod)
      && row.user == code.user && row.client == Some(code.client)
  {
    ReachableSound(s);
    assert SessionOk(s, j, s.sessions[j]);
    assert CodeOk(s, s.codes[s.sessions[j].origin.code]);
  }

  /** Client, redirect URI, challenge, method, user and scope of a code never change once it is issued. */
  lemma CodeBindingFixed(s: State, es: seq<Event>, code: nat)
    requires Reachable(s)
    requires code < |s.codes|
    ensures code < |Run(s, es).codes|
    ensures CodeGrows(s.codes[code], Run(s, es).codes[code])
  {
    ReachableSound(s);
    RunKept(s, es);
  }

  /** Exactly when the peek lets a request go on to consume: bound, unconsumed, unexpired, PKCE matches. */
  predicate MayExchange(s: State, client: nat, form: CodeForm, code: nat) {
    && code < |s.codes| && Bound(s.codes[code], client, form)
    && s.codes[code].consumed.None? && s.codes[code].expiresAt >= s.now
  }

  lemma PeekDecides(s: State, r: nat, c: Choice, client: nat, form: CodeForm)
    requires Inv(s) && r in s.procs && s.procs[r] == PeekCode(client, form)
    ensures Apply(s, Step(r, c)) == s.(procs := Apply(s, Step(r, c)).procs)
    ensures var s' := Apply(s, Step(r, c));
      (r in s'.procs && s'.procs[r].SelectCode?) <==> exists code :: MayExchange(s, client, form, code)
  {
    TakesAuthorizing(s, r, PeekCode(client, form), c);
    PeekMoves(s, r, client, form);
    MayExchangeIsRead(s, client, form);
  }

  lemma MayExchangeIsRead(s: State, client: nat, form: CodeForm)
    requires UniqueHashes(s)
    ensures (exists code :: MayExchange(s, client, form, code))
       <==> AfterPeek(s, client, form).Some? && AfterPeek(s, client, form).value.SelectCode?
  {
    var hit := CodeByHash(s.codes, Sha256(form.code));
    if exists code :: MayExchange(s, client, form, code) {
      var code: nat :| MayExchange(s, client, form, code);
      assert hit == Some(code);
    } else if hit.Some? {
      assert !MayExchange(s, client, form, hit.value);
    }
  }

  // Scopes

  /** Every token of a session obtained with a code stores the code's scope, however often it was refreshed. */
  lemma ChainKeepsOriginalScope(s: State, i: nat)
    requires Reachable(s)
    requires i < |s.tokens|
    requires s.tokens[i].session < |s.sessions| && s.sessions[s.tokens[i].session].origin.FromCode?
    ensures var code := s.sessions[s.tokens[i].session].origin.code;
      code < |s.codes| && s.tokens[i].scope == s.codes[code].scope && s.tokens[i].client == Some(s.codes[code].client)
  {
    ReachableSound(s);
    assert RowOk(s, s.tokens[i]);
    assert SessionOk(s, s.tokens[i].session, s.sessions[s.tokens[i].session]);
  }

  /** Scope containment for an access token: of its code and of its client. */
  predicate ScopeContained(s: State, g: Grant) {
    if g.ClientToken? then g.client < |s.clients| && Within(Words(g.scope), s.clients[g.client].allowedScopes)
    else
      && g.session < |s.sessions|
      && (s.sessions[g.session].origin.FromCode? ==>
            var code := s.sessions[g.session].origin.code;
            && code < |s.codes| && s.codes[code].client < |s.clients|
            && Within(Words(g.scope), Words(s.codes[code].scope))
            && Within(Words(g.scope), s.clients[s.codes[code].client].allowedScopes))
  }

  /** Every access token obtained with a code has a scope within the code's, within its client's allowed scopes. */
  lemma ScopesNeverGrow(s: State, k: nat)
    requires Reachable(s)
    requires k < |s.grants|
    ensures ScopeContained(s, s.grants[k])
  {
    ReachableSound(s);
    var g := s.grants[k];
    assert GrantOk(s, g);
    if !g.ClientToken? && s.sessions[g.session].origin.FromCode? {
      var code := s.sessions[g.session].origin.code;
      assert SessionOk(s, g.session, s.sessions[g.session]);
      assert CodeOk(s, s.codes[code]);
      if g.Refreshed? {
        assert RowOk(s, s.tokens[g.presented]);
      }
      WithinTransitive(Words(g.scope), Words(s.codes[code].scope), s.clients[s.codes[code].client].allowedScopes);
    }
  }

  /**
   The scope of every refreshed access token: at the OAuth endpoint exactly the words asked for, all of
   them stored with the presented token, and if none were asked for, or at the first-party endpoint, what
   is stored.
   */
  lemma RefreshedScope(s: State, k: nat)
    requires Reachable(s) && k < |s.grants| && s.grants[k].Refreshed?
    ensures s.grants[k].presented < |s.tokens|
    ensures var g, stored := s.grants[k], s.tokens[s.grants[k].presented].scope;
      if g.via.AuthRefresh? || Words(g.via.requested) == [] then g.scope == stored
      else Words(g.scope) == Words(g.via.requested) && forall w :: w in Words(g.scope) ==> w in Words(stored)
  {
    ReachableSound(s);
    assert GrantOk(s, s.grants[k]);
  }

  /** The scope of every sign-in is stored in its session's first token, so refreshing starts from it. */
  lemma SignInScope(s: State, k: nat)
    requires Reachable(s) && k < |s.grants| && s.grants[k].SignedIn?
    ensures exists i :: 0 <= i < |s.tokens| && s.tokens[i].session == s.grants[k].session
                     && s.tokens[i].previous == None && s.tokens[i].scope == s.grants[k].scope
  {
    ReachableSound(s);
    assert GrantOk(s, s.grants[k]) && HasRoot(s.tokens, s.grants[k].session, s.grants[k].scope);
  }

  /** The scope words of a first-party login, but for an administrator's. */
  const FIRST_PARTY: seq<string> := ["openid", "profile", "email", "api.read"]

  /** Every token of a session that no code opened stores the scope of a first-party login. */
  lemma FirstPartyScope(s: State, i: nat)
    requires Reachable(s) && i < |s.tokens|
    ensures s.tokens[i].session < |s.sessions|
    ensures !s.sessions[s.tokens[i].session].origin.FromCode? ==>
      Words(s.tokens[i].scope) == FIRST_PARTY || Words(s.tokens[i].scope) == FIRST_PARTY + ["api.write"]
  {
    ReachableSound(s);
    assert RowOk(s, s.tokens[i]);
    FirstPartyWords();
  }

  lemma FirstPartyWords()
    ensures Words(DefaultScope(false)) == FIRST_PARTY && Words(DefaultScope(true)) == FIRST_PARTY + ["api.write"]
  {
    DefaultScopeWords(false);
    DefaultScopeWords(true);
    NothingMore(FIRST_PARTY);
  }

  lemma NothingMore(ws: seq<string>)
    ensures ws + [] == ws
  {
  }

  /**
   Every code was issued for a redirect URI and scope words its client is registered with, and with the
   method the client requires.
   */
  lemma CodeIsRegistered(s: State, i: nat)
    requires Reachable(s) && i < |s.codes|
    ensures s.codes[i].client < |s.clients|
    ensures var c := s.clients[s.codes[i].client];
      && s.codes[i].redirect in c.redirects
      && (c.requirePkce ==> s.codes[i].codeMethod == S256)
      && forall w :: w in Words(s.codes[i].scope) ==> w in c.allowedScopes
  {
    ReachableSound(s);
    assert CodeOk(s, s.codes[i]);
  }

  /** Every token of a client's own went to a confidential client registered for the grant, for words it is allowed. */
  lemma ClientTokenIsEntitled(s: State, k: nat)
    requires Reachable(s) && k < |s.grants| && s.grants[k].ClientToken?
    ensures s.grants[k].client < |s.clients|
    ensures var c := s.clients[s.grants[k].client];
      && c.confidential && c.clientCredentials && !c.noSecretAuth
      && Words(s.grants[k].scope) != [] && forall w :: w in Words(s.grants[k].scope) ==> w in c.allowedScopes
  {
    ReachableSound(s);
    assert GrantOk(s, s.grants[k]);
  }

  /** A client's allowed scopes are fixed when it is registered. */
  lemma AllowedScopesFixed(s: State, es: seq<Event>, client: nat)
    requires Reachable(s)
    requires client < |s.clients|
    ensures client < |Run(s, es).clients|
    ensures Run(s, es).clients[client].allowedScopes == s.clients[client].allowedScopes
  {
    ReachableSound(s);
    RunKept(s, es);
  }

  // Which endpoint a client's token is good at

  /** An OAuth refresh only ever pays for a token issued to the client that asks. */
  lemma OAuthRefreshIsOwn(s: State, k: nat)
    requires Reachable(s) && k < |s.grants| && s.grants[k].Refreshed? && s.grants[k].via.OAuthRefresh?
    ensures s.grants[k].presented < |s.tokens| && s.tokens[s.grants[k].presented].client == Some(s.grants[k].via.client)
  {
    ReachableSound(s);
    assert GrantOk(s, s.grants[k]);
  }

  /** So a client's token is paid for to that client, or at the first-party endpoint, and nowhere else. */
  lemma ClientTokenPaidTo(s: State, k: nat, client: nat)
    requires Reachable(s) && k < |s.grants| && s.grants[k].Refreshed?
    requires s.grants[k].presented < |s.tokens| && s.tokens[s.grants[k].presented].client == Some(client)
    ensures s.grants[k].via.AuthRefresh? || s.grants[k].via.client == client
  {
    if s.grants[k].via.OAuthRefresh? {
      OAuthRefreshIsOwn(s, k);
    }
  }

  // A client's token, from the empty server

  function Drawn(n: nat): Choice { Choice(Raw(n), n, true, {}) }

  const CLIENT: ClientRow := ClientRow(false, None, ["https://app"], [], false, true, true, true)

  function Request(user: nat): AuthorizeForm {
    AuthorizeForm(0, "https://app", "", Sha256(Raw(0)), S256, Some(user))
  }

  const FORM: CodeForm := CodeForm(Raw(1), "https://app", Raw(0))

  function Issued(user: nat, consumed: Option<Presented>): CodeRow {
    CodeRow(Sha256(Raw(1)), 0, user, "https://app", "", Sha256(Raw(0)), S256, AUTHORIZATION_CODE_TTL, consumed)
  }

  lemma CodeIsIssued(user: nat) returns (s: State)
    ensures Reachable(s) && s == Init.(clients := [CLIENT], codes := [Issued(user, None)])
  {
    RunNone(Init);
    ReachableIsRun(Init);
    assert Run(Init, []) == Init;
    var f := Request(user);
    var s1 := Init.(clients := [CLIENT]);
    ReachNext(Init, Register(CLIENT));
    assert Apply(Init, Register(CLIENT)) == s1;
    var s2 := Goto(s1, 0, SelectAuthorizingClient(f));
    ReachNext(s1, Arrive(0, SelectAuthorizingClient(f)));
    TakesAuthorizing(s2, 0, SelectAuthorizingClient(f), Drawn(1));
    assert Words("") == [];
    ReachNext(s2, Step(0, Drawn(1)));
    var s3 := Goto(s2, 0, InsertCode(f, user));
    assert DoSelectAuthorizingClient(s2, 0, f, true) == s3;
    TakesIssuing(s3, 0, InsertCode(f, user), Drawn(1));
    ReachNext(s3, Step(0, Drawn(1)));
    s := DoInsertCode(s3, 0, f, user, Raw(1));
    assert s.procs == map[];
  }

  lemma CodeIsPeeked(user: nat) returns (s: State)
    ensures Reachable(s)
    ensures s == Init.(clients := [CLIENT], codes := [Issued(user, None)], procs := map[1 := SelectCode(0, FORM, 0)])
  {
    var s0 := CodeIsIssued(user);
    var p := SelectClient(0, None, CodeGrant(FORM));
    var s1 := Goto(s0, 1, p);
    ReachNext(s0, Arrive(1, p));
    TakesRotating(s1, 1, p, Drawn(0));
    ReachNext(s1, Step(1, Drawn(0)));
    var s2 := Goto(s1, 1, PeekCode(0, FORM));
    assert DoSelectClient(s1, 1, 0, None, CodeGrant(FORM)) == s2;
    TakesAuthorizing(s2, 1, PeekCode(0, FORM), Drawn(0));
    ReachNext(s2, Step(1, Drawn(0)));
    assert CodeByHash(s2.codes, Sha256(Raw(1))) == Some(0);
    s := Goto(s2, 1, SelectCode(0, FORM, 0));
    assert DoPeekCode(s2, 1, 0, FORM) == s;
    assert s.procs == map[1 := SelectCode(0, FORM, 0)];
  }

  lemma CodeIsConsumed(user: nat) returns (s: State)
    ensures Reachable(s) && s.now == 0 && s.tokens == [] && s.sessions == [] && s.cache == map[] && s.resets == []
    ensures |s.codes| == 1 && s.codes[0].hash == Sha256(Raw(1))
    ensures s.procs == map[1 := InsertSession(user, Some(0), FromCode(0), "")]
  {
    var s0 := CodeIsPeeked(user);
    TakesAuthorizing(s0, 1, SelectCode(0, FORM, 0), Drawn(0));
    ReachNext(s0, Step(1, Drawn(0)));
    assert CodeByHash(s0.codes, Sha256(Raw(1))) == Some(0);
    var s1 := Goto(s0, 1, ConsumeCode(0, FORM, 0));
    assert DoSelectCode(s0, 1, 0, FORM) == s1;
    TakesIssuing(s1, 1, ConsumeCode(0, FORM, 0), Drawn(0));
    ReachNext(s1, Step(1, Drawn(0)));
    s := DoConsumeCode(s1, 1, 0, FORM, 0);
  }

  /**
   For every user there is a reachable state with a live token of a client and its session open, which
   may therefore be refreshed at the first-party endpoint.
   */
  lemma ClientTokenIsReachable(user: nat) returns (s: State)
    ensures Reachable(s) && |s.tokens| == 1 && s.tokens[0].user == user && s.tokens[0].client == Some(0)
    ensures s.tokens[0].status == Active && s.now < s.tokens[0].expiresAt
    ensures s.tokens[0].session < |s.sessions| && s.sessions[s.tokens[0].session].status == Open
  {
    var s0 := CodeIsConsumed(user);
    TakesIssuing(s0, 1, InsertSession(user, Some(0), FromCode(0), ""), Drawn(2));
    ReachNext(s0, Step(1, Drawn(2)));
    var s1 := DoInsertSession(s0, 1, user, Some(0), FromCode(0), "", true);
    TakesIssuing(s1, 1, InsertRoot(0, user, Some(0), FromCode(0), ""), Drawn(2));
    ReachNext(s1, Step(1, Drawn(2)));
    s := DoInsertRoot(s1, 1, 0, user, Some(0), "", Drawn(2));
  }

  // Code replay

  /** The family belongs to this user and client. */
  ghost predicate FamilyOf(s: State, family: nat, user: nat, client: nat) {
    exists i :: 0 <= i < |s.tokens| && s.tokens[i].family == family && s.tokens[i].user == user &&
      s.tokens[i].client == Some(client)
  }

  lemma FamilyCovered(s: State, family: nat, user: nat, client: nat)
    requires Inv(s) && FamilyOf(s, family, user, client)
    ensures !FreshFamily(s, family) && Covers(OfUserAndClient(user, client), s.tokens, family)
  {
    var i :| 0 <= i < |s.tokens| && s.tokens[i].family == family && s.tokens[i].user == user &&
      s.tokens[i].client == Some(client);
    forall j | 0 <= j < |s.tokens| && s.tokens[j].family == family && s.tokens[j].status == Active
      ensures Selects(OfUserAndClient(user, client), s.tokens[j])
    {
      OneGrantPerFamily(s, i, j);
    }
  }

  /**
   A consumed code presented again with its own client and redirect URI, whatever the verifier, is
   taken as a replay.
   */
  lemma ReplayIsDetected(s: State, r: nat, c: Choice, client: nat, form: CodeForm, code: nat)
    requires Inv(s) && r in s.procs && s.procs[r] == PeekCode(client, form) && code < |s.codes|
    requires s.codes[code].hash == Sha256(form.code) && s.codes[code].client == client
    requires s.codes[code].redirect == form.redirect
    ensures Apply(s, Step(r, c)) == Goto(s, r, RevokeReplayed(code, s.codes[code].user, client)) <==>
      s.codes[code].consumed.Some?
  {
    OnlyCode(s, form, code);
    assert ReadCode(s.codes, s.now, client, form).Replayed? <==> s.codes[code].consumed.Some?;
    TakesAuthorizing(s, r, PeekCode(client, form), c);
    var s' := DoPeekCode(s, r, client, form);
    assert !s.codes[code].consumed.Some? ==> !(r in s'.procs && s'.procs[r].RevokeReplayed?);
  }

  /**
   The replay response kills exactly those families of the code's user and client that have no
   rotation in flight, and kills them for ever.
   */
  lemma ReplayKillsFamilies(s: State, r: nat, c: Choice, code: nat, user: nat, client: nat, family: nat, es: seq<Event>)
    requires Inv(s) && r in s.procs && s.procs[r] == RevokeReplayed(code, user, client)
    requires FamilyOf(s, family, user, client)
    ensures Dead(Apply(s, Step(r, c)), family) <==> InFlight(s, family) == {}
    ensures InFlight(s, family) == {} ==> Dead(Run(Apply(s, Step(r, c)), es), family)
  {
    FamilyCovered(s, family, user, client);
    RevocationKills(s, r, c, family);
    EventGood(s, Step(r, c));
    if InFlight(s, family) == {} {
      DeadForever(Apply(s, Step(r, c)), es, family);
    }
  }

  /** No exchange of the code is under way, and no rotation of a family of its user and client. */
  ghost predicate NothingPending(s: State, code: nat, user: nat, client: nat) {
    && (forall q :: q in s.procs ==> !(s.procs[q].InsertSession? && s.procs[q].origin == FromCode(code)))
    && (forall q :: q in s.procs ==> !(s.procs[q].InsertRoot? && s.procs[q].origin == FromCode(code)))
    && (forall f :: FamilyOf(s, f, user, client) ==> InFlight(s, f) == {})
  }

  /** The root of a token's family. */
  lemma RootOfFamily(s: State, i: nat) returns (root: nat)
    requires Inv(s) && i < |s.tokens|
    ensures root < |s.tokens| && s.tokens[root].previous.None? && SameGrant(s.tokens[root], s.tokens[i])
  {
    TokensUnbranched(s);
    AncestryIsPath(s.tokens, i);
    var path := Ancestry(s.tokens, i);
    root := path[0];
  }

  /**
   After the replay response, with nothing pending, no refresh token derived from the code is ever
   active again, in any later run.
   */
  lemma ReplayEndsDerivedTokens(s: State, r: nat, c: Choice, code: nat, user: nat, client: nat, es: seq<Event>, i: nat)
    requires Inv(s) && r in s.procs && s.procs[r] == RevokeReplayed(code, user, client)
    requires NothingPending(s, code, user, client)
    requires var s' := Run(Apply(s, Step(r, c)), es);
      i < |s'.tokens| && s'.tokens[i].session < |s'.sessions| &&
        s'.sessions[s'.tokens[i].session].origin == FromCode(code)
    ensures Run(Apply(s, Step(r, c)), es).tokens[i].status != Active
  {
    var s1 := Apply(s, Step(r, c));
    var s' := Run(s1, es);
    EventGood(s, Step(r, c));
    RunKept(s1, es);
    GrowsTransitive(s, s1, s');
    assert ProcOk(s, s.procs[r]);
    var family := DerivedFamily(s, s', code, i);
    ReplayKillsFamilies(s, r, c, code, user, client, family, es);
    assert i !in ActiveRows(s', family);
  }

  /** With no exchange pending, a token derived from the code belongs to a family that is there already. */
  lemma DerivedFamily(s: State, s': State, code: nat, i: nat) returns (family: nat)
    requires Inv(s) && Kept(s, s') && code < |s.codes| && s.codes[code].consumed.Some?
    requires forall q :: q in s.procs ==> !(s.procs[q].InsertSession? && s.procs[q].origin == FromCode(code))
    requires forall q :: q in s.procs ==> !(s.procs[q].InsertRoot? && s.procs[q].origin == FromCode(code))
    requires i < |s'.tokens| && s'.tokens[i].session < |s'.sessions|
    requires s'.sessions[s'.tokens[i].session].origin == FromCode(code)
    ensures family == s'.tokens[i].family && FamilyOf(s, family, s.codes[code].user, s.codes[code].client)
  {
    var root := RootOfFamily(s', i);
    var sid := s'.tokens[i].session;
    family := s'.tokens[i].family;
    CodeSessionIsOld(s, s', code, sid);
    CodeRootIsOld(s, s', code, sid, root);
    assert RowOk(s, s.tokens[root]) && SessionOk(s, sid, s.sessions[sid]);
  }

  /** If no exchange is about to create it, the code's session, if there ever is one, is there already. */
  lemma CodeSessionIsOld(s: State, s': State, code: nat, sid: nat)
    requires Inv(s) && Kept(s, s') && code < |s.codes| && s.codes[code].consumed.Some?
    requires forall q :: q in s.procs ==> !(s.procs[q].InsertSession? && s.procs[q].origin == FromCode(code))
    requires sid < |s'.sessions| && s'.sessions[sid].origin == FromCode(code)
    ensures sid < |s.sessions| && s.sessions[sid].origin == FromCode(code)
  {
    assert Holds(s', Session(sid), CodeUse(code));
    assert !Lapsed(s, CodeUse(code));
    var h :| Holds(s, h, CodeUse(code));
    assert h.Session?;
    assert SessionGrows(s.sessions[h.j], s'.sessions[h.j]);
    assert Holds(s', h, CodeUse(code));
  }

  /** Likewise for the root token of that session. */
  lemma CodeRootIsOld(s: State, s': State, code: nat, sid: nat, root: nat)
    requires Inv(s) && Kept(s, s') && sid < |s.sessions| && s.sessions[sid].origin == FromCode(code)
    requires forall q :: q in s.procs ==> !(s.procs[q].InsertRoot? && s.procs[q].origin == FromCode(code))
    requires root < |s'.tokens| && s'.tokens[root].previous.None? && s'.tokens[root].session == sid
    ensures root < |s.tokens| && TokenGrows(s.tokens[root], s'.tokens[root])
  {
    assert SessionGrows(s.sessions[sid], s'.sessions[sid]);
    assert Holds(s', Row(root), RootIn(sid));
    assert !Lapsed(s, RootIn(sid));
    forall q | q in s.procs
      ensures !ProcHolds(s.procs[q], RootIn(sid))
    {
      assert ProcOk(s, s.procs[q]);
    }
    var h :| Holds(s, h, RootIn(sid));
    assert h.Row?;
    assert TokenGrows(s.tokens[h.i], s'.tokens[h.i]);
    assert Holds(s', h, RootIn(sid));
  }
}
