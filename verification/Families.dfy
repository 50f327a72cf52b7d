/**
 Refresh-token families over whole runs: the live end is unique, the links form one path,
 a family without a live end stays dead, and refreshing is conservative.
 */
module Families {
  import opened Basics
  import opened Tables
  import opened Machine
  import opened Invariant
  import opened Preservation
  import opened Steps

  /** The invariant along a run, and everything a run cannot undo. */
  lemma {:induction false} RunKept(s: State, es: seq<Event>)
    requires Inv(s)
    ensures Kept(s, Run(s, es))
    decreases |es|
  {
    if |es| == 0 {
      Unchanged(s);
    } else {
      var m := Run(s, es[..|es| - 1]);
      RunKept(s, es[..|es| - 1]);
      EventGood(m, es[|es| - 1]);
      GrowsTransitive(s, m, Run(s, es));
    }
  }

  lemma EventThenRun(s: State, e: Event, es: seq<Event>, m: State)
    requires Inv(s) && m == Run(Apply(s, e), es)
    ensures Kept(s, m)
  {
    EventGood(s, e);
    RunKept(Apply(s, e), es);
    GrowsTransitive(s, Apply(s, e), m);
  }

  lemma ReachableInv(es: seq<Event>)
    ensures Inv(Run(Init, es))
  {
    InitInv();
    RunKept(Init, es);
  }

  lemma ReachableSound(s: State)
    requires Reachable(s)
    ensures Inv(s)
  {
    ReachableIsRun(s);
    var es :| Run(Init, es) == s;
    ReachableInv(es);
  }

  // The live end

  function ActiveRows(s: State, family: nat): set<nat> {
    set i | 0 <= i < |s.tokens| && s.tokens[i].family == family && s.tokens[i].status == Active
  }

  /** Rotations of the family between the UPDATE that spends a token and the INSERT of its successor. */
  function InFlight(s: State, family: nat): set<nat> {
    set r | r in s.procs && s.procs[r].InsertSuccessor? && s.procs[r].row.family == family
  }

  /** In every interleaving a family has at most one active token or rotation in flight. */
  lemma OneLiveEnd(s: State, family: nat)
    requires Reachable(s)
    ensures |ActiveRows(s, family)| + |InFlight(s, family)| <= 1
  {
    ReachableSound(s);
    var c := Slot(family);
    forall i, j | i in ActiveRows(s, family) && j in ActiveRows(s, family)
      ensures i == j
    {
      assert Holds(s, Row(i), c) && Holds(s, Row(j), c);
    }
    forall q, r | q in InFlight(s, family) && r in InFlight(s, family)
      ensures q == r
    {
      assert Holds(s, Request(q), c) && Holds(s, Request(r), c);
    }
    AtMostOne(ActiveRows(s, family));
    AtMostOne(InFlight(s, family));
    if ActiveRows(s, family) != {} && InFlight(s, family) != {} {
      var i :| i in ActiveRows(s, family);
      var r :| r in InFlight(s, family);
      assert Holds(s, Row(i), c) && Holds(s, Request(r), c);
    }
  }

  // The chain of rotations

  predicate SameGrant(a: TokenRow, b: TokenRow) {
    && a.family == b.family && a.session == b.session && a.user == b.user
    && a.client == b.client && a.scope == b.scope
  }

  /** Row b is the rotation of the spent row a. */
  predicate Follows(t: seq<TokenRow>, a: nat, b: nat) {
    a < b < |t| && t[b].previous == Some(a) && t[a].status != Active
  }

  /** path starts at a root and each row in it is the rotation of the one before. */
  ghost predicate IsPath(t: seq<TokenRow>, path: seq<nat>) {
    && |path| > 0
    && (forall k {:trigger path[k]} :: 0 <= k < |path| ==> path[k] < |t|)
    && (forall k {:trigger path[k]} :: 0 <= k < |path| ==> SameGrant(t[path[|path| - 1]], t[path[k]]))
    && t[path[0]].previous == None
    && (forall j, k {:trigger path[j], path[k]} :: 0 <= j && k == j + 1 && k < |path| ==> Follows(t, path[j], path[k]))
  }

  /** The path is the whole family. */
  ghost predicate IsChain(t: seq<TokenRow>, family: nat, path: seq<nat>) {
    IsPath(t, path) && forall i {:trigger t[i]} :: 0 <= i < |t| ==> (t[i].family == family <==> i in path)
  }

  ghost predicate Linked(t: seq<TokenRow>) {
    forall k {:trigger t[k]} :: 0 <= k < |t| ==> LinkOk(t, k)
  }

  /** The rows from the root to row i. */
  ghost function Ancestry(t: seq<TokenRow>, i: nat): seq<nat>
    requires i < |t| && Linked(t)
    decreases i
  {
    if t[i].previous.None? then [i]
    else
      assert LinkOk(t, i);
      Ancestry(t, t[i].previous.value) + [i]
  }

  lemma {:induction false} AncestryIsPath(t: seq<TokenRow>, i: nat)
    requires i < |t| && Linked(t)
    ensures var path := Ancestry(t, i); IsPath(t, path) && path[|path| - 1] == i
    decreases i
  {
    if t[i].previous.Some? {
      assert LinkOk(t, i);
      var p := t[i].previous.value;
      AncestryIsPath(t, p);
      var older := Ancestry(t, p);
      var path := older + [i];
      assert forall k :: 0 <= k < |older| ==> path[k] == older[k];
    }
  }

  ghost predicate Unbranched(t: seq<TokenRow>) {
    forall i, j {:trigger t[i], t[j]} :: 0 <= i < |t| && 0 <= j < |t| ==>
      && (t[i].previous.Some? && t[i].previous == t[j].previous ==> i == j)
      && (t[i].previous.None? && t[j].previous.None? && t[i].family == t[j].family ==> i == j)
  }

  /** Of two rows of one family, the older is an ancestor of the younger. */
  lemma {:induction false} OlderIsAncestor(t: seq<TokenRow>, i: nat, j: nat)
    requires Linked(t) && Unbranched(t) && i <= j < |t| && t[i].family == t[j].family
    ensures i in Ancestry(t, j)
    decreases j
  {
    AncestryIsPath(t, j);
    var path := Ancestry(t, j);
    if i == j {
      assert path[|path| - 1] == j;
    } else if t[j].previous.None? {
      AncestryIsPath(t, i);
      var older := Ancestry(t, i);
      PathIncreases(t, older, 0, |older| - 1);
      assert false;
    } else {
      assert LinkOk(t, j);
      var p := t[j].previous.value;
      if i <= p {
        OlderIsAncestor(t, i, p);
      } else {
        OlderIsAncestor(t, p, i);
        AncestryIsPath(t, i);
        NoSecondSuccessor(t, Ancestry(t, i), p, j);
      }
    }
  }

  /** A path through p that ends before p's successor j ends at p. */
  lemma NoSecondSuccessor(t: seq<TokenRow>, path: seq<nat>, p: nat, j: nat)
    requires Unbranched(t) && IsPath(t, path) && p in path && path[|path| - 1] < j < |t|
    requires t[j].previous == Some(p)
    ensures path[|path| - 1] == p
  {
    var k :| 0 <= k < |path| && path[k] == p;
    if k + 1 < |path| {
      assert Follows(t, path[k], path[k + 1]);
      PathIncreases(t, path, k + 1, |path| - 1);
      assert false;
    }
  }

  lemma {:induction false} PathIncreases(t: seq<TokenRow>, path: seq<nat>, a: nat, b: nat)
    requires IsPath(t, path) && a <= b < |path|
    ensures path[a] <= path[b]
    decreases b
  {
    if a < b {
      PathIncreases(t, path, a, b - 1);
      assert Follows(t, path[b - 1], path[b]);
    }
  }

  lemma TokensUnbranched(s: State)
    requires Inv(s)
    ensures Linked(s.tokens) && Unbranched(s.tokens)
  {
    var t := s.tokens;
    forall k: nat | k < |t|
      ensures LinkOk(t, k)
    {
      assert RowOk(s, s.tokens[k]);
    }
    forall i, j {:trigger t[i], t[j]} | 0 <= i < |t| && 0 <= j < |t|
      ensures t[i].previous.Some? && t[i].previous == t[j].previous ==> i == j
      ensures t[i].previous.None? && t[j].previous.None? && t[i].family == t[j].family ==> i == j
    {
      if t[i].previous.Some? && t[i].previous == t[j].previous {
        assert Holds(s, Row(i), Next(t[i].previous.value)) && Holds(s, Row(j), Next(t[i].previous.value));
      }
      if t[i].previous.None? && t[j].previous.None? && t[i].family == t[j].family {
        assert Holds(s, Row(i), RootOf(t[i].family)) && Holds(s, Row(j), RootOf(t[i].family));
      }
    }
  }

  lemma Youngest(t: seq<TokenRow>, i: nat) returns (last: nat)
    requires i < |t|
    ensures last < |t| && t[last].family == t[i].family
    ensures forall k :: last < k < |t| ==> t[k].family != t[i].family
  {
    last := |t| - 1;
    while t[last].family != t[i].family
      invariant i <= last < |t|
      invariant forall k :: last < k < |t| ==> t[k].family != t[i].family
      decreases last
    {
      last := last - 1;
    }
  }

  lemma WholeFamily(t: seq<TokenRow>, last: nat)
    requires Linked(t) && Unbranched(t) && last < |t|
    requires forall k :: last < k < |t| ==> t[k].family != t[last].family
    ensures IsChain(t, t[last].family, Ancestry(t, last))
  {
    var path := Ancestry(t, last);
    AncestryIsPath(t, last);
    forall k {:trigger t[k]} | 0 <= k < |t|
      ensures t[k].family == t[last].family <==> k in path
    {
      if t[k].family == t[last].family {
        OlderIsAncestor(t, k, last);
      }
    }
  }

  /** A family is one acyclic, unbranched path of one grant; only its last row may be active. */
  lemma FamilyIsChain(s: State, i: nat)
    requires Reachable(s)
    requires i < |s.tokens|
    ensures exists path :: IsChain(s.tokens, s.tokens[i].family, path)
  {
    var t := s.tokens;
    ReachableSound(s);
    TokensUnbranched(s);
    var last := Youngest(t, i);
    WholeFamily(t, last);
  }

  lemma {:induction false} OneGrantPerFamily(s: State, i: nat, j: nat)
    requires Inv(s) && i < |s.tokens| && j < |s.tokens| && s.tokens[i].family == s.tokens[j].family
    ensures SameGrant(s.tokens[i], s.tokens[j])
  {
    var t := s.tokens;
    TokensUnbranched(s);
    var last := Youngest(t, i);
    WholeFamily(t, last);
    var path := Ancestry(t, last);
    var a :| 0 <= a < |path| && path[a] == i;
    var b :| 0 <= b < |path| && path[b] == j;
    assert SameGrant(t[path[|path| - 1]], t[path[a]]) && SameGrant(t[path[|path| - 1]], t[path[b]]);
  }

  // Dead families

  /** The family has tokens, but none is active and none is about to be issued. */
  ghost predicate Dead(s: State, family: nat) {
    !FreshFamily(s, family) && ActiveRows(s, family) == {} && InFlight(s, family) == {}
  }

  lemma SlotHolder(s: State, family: nat, h: Holder)
    requires Inv(s) && Holds(s, h, Slot(family))
    ensures (h.Row? && h.i in ActiveRows(s, family)) || (h.Request? && h.r in InFlight(s, family))
  {
  }

  lemma DeadIsLapsed(s: State, family: nat)
    requires Inv(s)
    ensures Dead(s, family) <==> Lapsed(s, Slot(family))
  {
    if Dead(s, family) {
      forall h | Holds(s, h, Slot(family))
        ensures false
      {
        SlotHolder(s, family, h);
      }
    }
    if Lapsed(s, Slot(family)) {
      assert forall i :: i in ActiveRows(s, family) ==> Holds(s, Row(i), Slot(family));
      assert forall r :: r in InFlight(s, family) ==> Holds(s, Request(r), Slot(family));
    }
  }

  /** A dead family stays dead, gets no new row, and no consuming UPDATE matches a member again. */
  lemma {:induction false} DeadForever(s: State, es: seq<Event>, family: nat)
    requires Inv(s) && Dead(s, family)
    ensures var s' := Run(s, es);
      && Dead(s', family)
      && (forall i :: |s.tokens| <= i < |s'.tokens| ==> s'.tokens[i].family != family)
      && (forall i, now :: 0 <= i < |s'.tokens| && s'.tokens[i].family == family ==>
            Consumable(s'.tokens, s'.tokens[i].hash, now) == None)
    decreases |es|
  {
    DeadIsLapsed(s, family);
    RunKept(s, es);
    DeadIsLapsed(Run(s, es), family);
    NoneConsumable(Run(s, es), family);
    if |es| > 0 {
      var before := Run(s, es[..|es| - 1]);
      DeadForever(s, es[..|es| - 1], family);
      RunKept(s, es[..|es| - 1]);
      EventGood(before, es[|es| - 1]);
      RunLast(s, es);
      NoneAdded(before, Run(s, es), |s.tokens|, family);
    }
  }

  lemma NoneConsumable(s: State, family: nat)
    requires Inv(s) && Dead(s, family)
    ensures forall i, now :: 0 <= i < |s.tokens| && s.tokens[i].family == family ==>
              Consumable(s.tokens, s.tokens[i].hash, now) == None
  {
    forall i, now | 0 <= i < |s.tokens| && s.tokens[i].family == family
      ensures Consumable(s.tokens, s.tokens[i].hash, now) == None
    {
      assert i !in ActiveRows(s, family);
    }
  }

  lemma NoneAdded(s: State, s': State, from: nat, family: nat)
    requires Good(s, s') && Dead(s', family) && from <= |s.tokens|
    requires forall i :: from <= i < |s.tokens| ==> s.tokens[i].family != family
    ensures forall i :: from <= i < |s'.tokens| ==> s'.tokens[i].family != family
  {
    forall i | from <= i < |s'.tokens|
      ensures s'.tokens[i].family != family
    {
      if i < |s.tokens| {
        assert TokenGrows(s.tokens[i], s'.tokens[i]);
      } else {
        assert i !in ActiveRows(s', family);
      }
    }
  }

  // What the revoking statements achieve

  /** The revoking UPDATE on refresh_tokens a request is about to execute, if it is about to execute one. */
  function RevokingWhere(p: Proc): Option<TokenWhere> {
    match p
    case RevokeReusedFamily(_, row) => Some(OfFamily(row.family))
    case RevokeByToken(hash) => Some(WithHash(hash))
    case RevokePresented(hash, _) => Some(WithHash(hash))
    case Resume(_, found, ForRefresh(_, _, row, _)) =>
      if found.None? || found.value.status != Open then Some(OfFamily(row.family)) else None
    case EndSessionTokens(sid, _) => Some(ActiveOfSession(sid))
    case EndUserTokens(user) => Some(OfUser(user))
    case RevokeReplayed(_, user, client) => Some(OfUserAndClient(user, client))
    case _ => None
  }

  lemma RevokingEffect(s: State, r: nat, c: Choice)
    requires r in s.procs && RevokingWhere(s.procs[r]).Some?
    ensures var s' := Apply(s, Step(r, c));
      && s'.tokens == RevokeTokens(s.tokens, RevokingWhere(s.procs[r]).value)
      && (forall f :: InFlight(s', f) == InFlight(s, f))
  {
    var s', p := Apply(s, Step(r, c)), s.procs[r];
    if Revoking(p) {
      TakesRevoking(s, r, p, c);
    } else if Ending(p) {
      TakesEnding(s, r, p, c);
    } else {
      TakesRotating(s, r, p, c);
    }
    forall f
      ensures InFlight(s', f) == InFlight(s, f)
    {
      SameInFlight(s, s', r, f);
    }
  }

  /** A request that is not a rotation about to insert, before or after, changes nothing of what is in flight. */
  lemma SameInFlight(s: State, s': State, q: nat, family: nat)
    requires q in s.procs && !s.procs[q].InsertSuccessor?
    requires s'.procs == s.procs - {q} ||
      (q in s'.procs && !s'.procs[q].InsertSuccessor? && s'.procs == s.procs[q := s'.procs[q]])
    ensures InFlight(s', family) == InFlight(s, family)
  {
  }

  /** The clause selects every token of the family that is still active. */
  ghost predicate Covers(w: TokenWhere, t: seq<TokenRow>, family: nat) {
    forall i :: 0 <= i < |t| && t[i].family == family && t[i].status == Active ==> Selects(w, t[i])
  }

  /**
   Reuse detection, a refresh that finds its session closed, logout, password reset, code replay and
   RFC 7009 revocation, in one: a revoking statement that covers a family kills it exactly when no
   rotation of the family is between its UPDATE and its INSERT.
   */
  lemma RevocationKills(s: State, r: nat, c: Choice, family: nat)
    requires Inv(s) && r in s.procs && RevokingWhere(s.procs[r]).Some? && !FreshFamily(s, family)
    requires Covers(RevokingWhere(s.procs[r]).value, s.tokens, family)
    ensures Dead(Apply(s, Step(r, c)), family) <==> InFlight(s, family) == {}
  {
    var s' := Apply(s, Step(r, c));
    RevokingEffect(s, r, c);
    var i :| 0 <= i < |s.tokens| && s.tokens[i].family == family;
    assert s'.tokens[i].family == family;
    assert ActiveRows(s', family) == {};
  }

  /** An active token excludes other active tokens and rotations in flight. */
  lemma ActiveStandsAlone(s: State, i: nat)
    requires Inv(s) && i < |s.tokens| && s.tokens[i].status == Active
    ensures ActiveRows(s, s.tokens[i].family) == {i} && InFlight(s, s.tokens[i].family) == {}
  {
    var c := Slot(s.tokens[i].family);
    assert Holds(s, Row(i), c);
    assert forall j :: j in ActiveRows(s, c.family) ==> Holds(s, Row(j), c);
    assert forall q :: q in InFlight(s, c.family) ==> Holds(s, Request(q), c);
  }

  lemma OneRowRevoked(s: State, i: nat)
    requires UniqueHashes(s) && i < |s.tokens| && s.tokens[i].status == Active
    ensures RevokeTokens(s.tokens, WithHash(s.tokens[i].hash)) == s.tokens[i := s.tokens[i].(status := Revoked)]
  {
  }

  /** RFC 7009: revoking the active token ends its family for ever, although one row changes. */
  lemma RevokingActiveTokenEndsFamily(s: State, r: nat, c: Choice, i: nat, es: seq<Event>)
    requires Inv(s) && i < |s.tokens| && s.tokens[i].status == Active && r in s.procs
    requires s.procs[r] == RevokeByToken(s.tokens[i].hash)
          || (s.procs[r].RevokePresented? && s.procs[r].hash == s.tokens[i].hash)
    ensures var s1 := Apply(s, Step(r, c));
      && s1.tokens == s.tokens[i := s.tokens[i].(status := Revoked)]
      && Dead(s1, s.tokens[i].family) && Dead(Run(s1, es), s.tokens[i].family)
  {
    var family := s.tokens[i].family;
    ActiveStandsAlone(s, i);
    assert forall j :: 0 <= j < |s.tokens| && s.tokens[j].family == family && s.tokens[j].status == Active ==>
      j in ActiveRows(s, family);
    RevokesOneRow(s, r, c, i);
    RevocationKills(s, r, c, family);
    EventGood(s, Step(r, c));
    DeadForever(Apply(s, Step(r, c)), es, family);
  }

  lemma RevokesOneRow(s: State, r: nat, c: Choice, i: nat)
    requires Inv(s) && i < |s.tokens| && s.tokens[i].status == Active && r in s.procs
    requires s.procs[r] == RevokeByToken(s.tokens[i].hash)
          || (s.procs[r].RevokePresented? && s.procs[r].hash == s.tokens[i].hash)
    ensures Apply(s, Step(r, c)).tokens == s.tokens[i := s.tokens[i].(status := Revoked)]
  {
    OneRowRevoked(s, i);
    RevokingEffect(s, r, c);
  }

  /** Reuse detection with no rotation in flight: the family is dead for ever. */
  lemma ReuseKillsFamily(s: State, r: nat, c: Choice, known: nat, row: TokenRow, es: seq<Event>)
    requires Inv(s) && r in s.procs && s.procs[r] == RevokeReusedFamily(known, row)
    requires InFlight(s, row.family) == {}
    ensures Dead(Run(Apply(s, Step(r, c)), es), row.family)
  {
    assert ProcOk(s, s.procs[r]);
    RevocationKills(s, r, c, row.family);
    EventGood(s, Step(r, c));
    DeadForever(Apply(s, Step(r, c)), es, row.family);
  }

  /** Its second statement closes the session of the reused token, for ever. */
  lemma ReuseClosesSession(s: State, r: nat, c: Choice, known: nat, row: TokenRow, es: seq<Event>)
    requires Inv(s) && r in s.procs && s.procs[r] == RevokeReusedSession(known, row)
    ensures var s' := Run(Apply(s, Step(r, c)), es);
      row.session < |s'.sessions| && s'.sessions[row.session].status == Closed
  {
    assert ProcOk(s, s.procs[r]) && RowOk(s, s.tokens[known]);
    var s1 := Apply(s, Step(r, c));
    assert s1.sessions[row.session].status == Closed;
    EventGood(s, Step(r, c));
    RunKept(s1, es);
    assert SessionGrows(s1.sessions[row.session], Run(s1, es).sessions[row.session]);
  }

  // A refresh by another client

  /** A rotation in flight excludes active tokens. */
  lemma SlotTaken(s: State, r: nat)
    requires Inv(s) && r in s.procs && s.procs[r].InsertSuccessor?
    ensures ActiveRows(s, s.procs[r].row.family) == {}
  {
    var c := Slot(s.procs[r].row.family);
    assert Holds(s, Request(r), c);
    assert forall i :: i in ActiveRows(s, c.family) ==> Holds(s, Row(i), c);
  }

  lemma OnlyLast(s: State, last: nat, family: nat)
    requires |s.tokens| == last + 1 && s.tokens[last].family == family && s.tokens[last].status == Active
    requires forall i :: 0 <= i < last && s.tokens[i].family == family ==> s.tokens[i].status != Active
    ensures ActiveRows(s, family) == {last}
  {
  }

  /** In any state: the INSERT of a rotation makes its successor the family's one active token. */
  lemma SuccessorIsActive(s: State, r: nat, via: Endpoint, presented: nat, row: TokenRow, c: Choice)
    requires Inv(s) && r in s.procs && s.procs[r] == InsertSuccessor(via, presented, row) && FreshSecret(s, c.secret)
    ensures var s1 := Apply(s, Step(r, c));
      && ActiveRows(s1, row.family) == {|s.tokens|} && s1.tokens[|s.tokens|].previous == Some(presented)
      && s1.grants == s.grants && r in s1.procs && s1.procs[r] == AfterRotation(via, presented, row, |s.tokens|)
  {
    TakesRotating(s, r, s.procs[r], c);
    SlotTaken(s, r);
    assert forall i :: 0 <= i < |s.tokens| && s.tokens[i].family == row.family ==> i !in ActiveRows(s, row.family);
    OnlyLast(DoInsertSuccessor(s, r, via, presented, row, c.secret), |s.tokens|, row.family);
  }

  /** In any state: revoking a spent token by its hash takes no family's active token. */
  lemma RevokingSpentTakesNothing(s: State, r: nat, i: nat, d: Choice, family: nat)
    requires Inv(s) && i < |s.tokens| && s.tokens[i].status != Active
    requires r in s.procs && s.procs[r] == RevokeByToken(s.tokens[i].hash)
    ensures var s' := Apply(s, Step(r, d));
      && ActiveRows(s', family) == ActiveRows(s, family) && i < |s'.tokens| && s'.tokens[i].status == Revoked
      && s'.grants == s.grants && s'.procs == s.procs - {r}
  {
    TakesRevoking(s, r, s.procs[r], d);
    SpentRowRevoked(s, i);
  }

  lemma SpentRowRevoked(s: State, i: nat)
    requires UniqueHashes(s) && i < |s.tokens| && s.tokens[i].status != Active
    ensures RevokeTokens(s.tokens, WithHash(s.tokens[i].hash)) == s.tokens[i := s.tokens[i].(status := Revoked)]
  {
  }

  /** Events es lead from a to b, and request q waits for its next statement all along. */
  ghost predicate Waits(a: State, es: seq<Event>, q: nat, b: State) {
    b == Run(a, es) && q in a.procs && q in b.procs && b.procs[q] == a.procs[q]
  }

  /**
   A rotation for a client the token was not issued to, with any events between its INSERT and its
   revoking UPDATE: it pays nothing, its successor, which nobody was given, becomes the family's one
   active token, and the UPDATE revokes the presented row and takes no active token away.
   */
  lemma MismatchLeavesSuccessor(s: State, r: nat, via: Endpoint, presented: nat, row: TokenRow,
                                c: Choice, es: seq<Event>, m: State, d: Choice)
    requires Inv(s) && r in s.procs && s.procs[r] == InsertSuccessor(via, presented, row) && FreshSecret(s, c.secret)
    requires via.OAuthRefresh? && row.client != Some(via.client)
    requires Waits(Apply(s, Step(r, c)), es, r, m)
    ensures ActiveRows(Apply(s, Step(r, c)), row.family) == {|s.tokens|} && Apply(s, Step(r, c)).grants == s.grants
    ensures var s' := Apply(m, Step(r, d));
      && ActiveRows(s', row.family) == ActiveRows(m, row.family) && s'.grants == m.grants && r !in s'.procs
      && presented < |s'.tokens| && s'.tokens[presented].status == Revoked
  {
    SuccessorIsActive(s, r, via, presented, row, c);
    EventThenRun(s, Step(r, c), es, m);
    PresentedWasSpent(s, r, via, presented, row);
    StillSpent(s, m, presented, row);
    MismatchRevokes(m, r, presented, d, row);
  }

  lemma PresentedWasSpent(s: State, r: nat, via: Endpoint, presented: nat, row: TokenRow)
    requires Inv(s) && r in s.procs && s.procs[r] == InsertSuccessor(via, presented, row)
    ensures Spent(s.tokens, presented) && Copy(s.tokens, presented, row)
  {
    assert ProcOk(s, s.procs[r]);
  }

  lemma MismatchRevokes(m: State, r: nat, presented: nat, d: Choice, row: TokenRow)
    requires Inv(m) && presented < |m.tokens| && m.tokens[presented].status != Active
    requires m.tokens[presented].hash == row.hash && r in m.procs && m.procs[r] == RevokeByToken(row.hash)
    ensures var s' := Apply(m, Step(r, d));
      && ActiveRows(s', row.family) == ActiveRows(m, row.family) && s'.grants == m.grants && r !in s'.procs
      && presented < |s'.tokens| && s'.tokens[presented].status == Revoked
  {
    RevokingSpentTakesNothing(m, r, presented, d, row.family);
  }

  lemma StillSpent(s: State, m: State, presented: nat, row: TokenRow)
    requires Grows(s, m) && Spent(s.tokens, presented) && Copy(s.tokens, presented, row)
    ensures presented < |m.tokens| && m.tokens[presented].status != Active && m.tokens[presented].hash == row.hash
  {
    assert TokenGrows(s.tokens[presented], m.tokens[presented]);
  }

  /**
   The consuming UPDATE on a token's hash rotates that token if it is active and not expired at that
   moment, and otherwise changes no table and leads to the reuse SELECT.
   */
  lemma ConsumesExactly(s: State, q: nat, via: Endpoint, i: nat, c: Choice)
    requires Inv(s) && i < |s.tokens| && q in s.procs && s.procs[q] == UpdateRotated(via, s.tokens[i].hash)
    ensures var row := s.tokens[i].(status := Rotated);
      Apply(s, Step(q, c)) ==
      if s.tokens[i].status == Active && s.now < s.tokens[i].expiresAt
      then Goto(s.(tokens := s.tokens[i := row]), q, InsertSuccessor(via, i, row))
      else Goto(s, q, SelectKnown(s.tokens[i].hash))
  {
    assert TokenByHash(s.tokens, s.tokens[i].hash) == Some(i);
    TakesRotating(s, q, s.procs[q], c);
  }

  /** A token is good for REFRESH_TOKEN_TTL at most: after that, any events later, its UPDATE misses it. */
  lemma TokenExpires(s: State, es: seq<Event>, i: nat, q: nat, via: Endpoint, c: Choice)
    requires Inv(s) && i < |s.tokens| && s.now + REFRESH_TOKEN_TTL <= Run(s, es).now
    requires q in Run(s, es).procs && Run(s, es).procs[q] == UpdateRotated(via, s.tokens[i].hash)
    ensures Apply(Run(s, es), Step(q, c)) == Goto(Run(s, es), q, SelectKnown(s.tokens[i].hash))
  {
    var m := Run(s, es);
    RunKept(s, es);
    assert RowOk(s, s.tokens[i]) && TokenGrows(s.tokens[i], m.tokens[i]);
    ConsumesExactly(m, q, via, i, c);
  }

  /** A successor never expires before the token it replaces. */
  lemma ExpiryOnlyExtends(s: State, i: nat)
    requires Reachable(s) && i < |s.tokens| && s.tokens[i].previous.Some?
    ensures s.tokens[i].previous.value < i
    ensures s.tokens[s.tokens[i].previous.value].expiresAt <= s.tokens[i].expiresAt
  {
    ReachableSound(s);
    assert RowOk(s, s.tokens[i]) && LinkOk(s.tokens, i);
  }

  /** In any state: presenting a known token that is not active or has expired leads to the reuse SELECT, */
  lemma DeadTokenIsRefused(s: State, q: nat, via: Endpoint, i: nat, c: Choice)
    requires Inv(s) && i < |s.tokens| && !(s.tokens[i].status == Active && s.now < s.tokens[i].expiresAt)
    requires q in s.procs && s.procs[q] == UpdateRotated(via, s.tokens[i].hash)
    ensures Apply(s, Step(q, c)) == Goto(s, q, SelectKnown(s.tokens[i].hash))
  {
    ConsumesExactly(s, q, via, i, c);
  }

  /** and that SELECT finds it. */
  lemma KnownTokenIsFound(s: State, q: nat, i: nat, c: Choice)
    requires Inv(s) && i < |s.tokens| && q in s.procs && s.procs[q] == SelectKnown(s.tokens[i].hash)
    ensures Apply(s, Step(q, c)) == Goto(s, q, RevokeReusedFamily(i, s.tokens[i]))
  {
    assert TokenByHash(s.tokens, s.tokens[i].hash) == Some(i);
    TakesRevoking(s, q, s.procs[q], c);
  }

  /**
   Presenting a token that is known but not active, as its rightful client may after that, or one that
   has expired, is taken as reuse, with any events between its UPDATE, its SELECT and its revoking
   UPDATE: the last leaves the family dead if and only if no rotation of it is in flight.
   */
  lemma DeadTokenIsReuse(s: State, q: nat, via: Endpoint, i: nat, c: Choice, es: seq<Event>, m: State, fs: seq<Event>,
        n: State)
    requires Inv(s) && i < |s.tokens| && !(s.tokens[i].status == Active && s.now < s.tokens[i].expiresAt)
    requires q in s.procs && s.procs[q] == UpdateRotated(via, s.tokens[i].hash)
    requires Waits(Apply(s, Step(q, c)), es, q, m) && Waits(Apply(m, Step(q, c)), fs, q, n)
    ensures Dead(Apply(n, Step(q, c)), s.tokens[i].family) <==> InFlight(n, s.tokens[i].family) == {}
  {
    DeadTokenIsRefused(s, q, via, i, c);
    EventThenRun(s, Step(q, c), es, m);
    assert TokenGrows(s.tokens[i], m.tokens[i]);
    KnownTokenIsFound(m, q, i, c);
    EventThenRun(m, Step(q, c), fs, n);
    ReusedFamilyDies(n, q, i, m.tokens[i], c);
  }

  lemma ReusedFamilyDies(s: State, q: nat, known: nat, row: TokenRow, c: Choice)
    requires Inv(s) && q in s.procs && s.procs[q] == RevokeReusedFamily(known, row)
    ensures Dead(Apply(s, Step(q, c)), row.family) <==> InFlight(s, row.family) == {}
  {
    assert ProcOk(s, s.procs[q]);
    RevocationKills(s, q, c, row.family);
  }

  // Conservation

  /** The access tokens returned by refreshing the family. */
  function PaidOut(s: State, family: nat): set<nat> {
    set k | 0 <= k < |s.grants| && s.grants[k].Refreshed?
         && s.grants[k].presented < |s.tokens| && s.tokens[s.grants[k].presented].family == family
  }

  function NonRoots(s: State, family: nat): set<nat> {
    set i | 0 <= i < |s.tokens| && s.tokens[i].family == family && s.tokens[i].previous.Some?
  }

  ghost function SuccessorOf(t: seq<TokenRow>, p: nat): (i: nat)
    requires HasSuccessor(t, p)
    ensures i < |t| && t[i].previous == Some(p)
  {
    var i :| 0 <= i < |t| && t[i].previous == Some(p);
    i
  }

  /** Each presented token pays for at most one access token, on either endpoint. */
  lemma PaidOnce(s: State, k: nat, l: nat)
    requires Reachable(s)
    requires k < |s.grants| && l < |s.grants| && s.grants[k].Refreshed? && s.grants[l].Refreshed?
    requires s.grants[k].presented == s.grants[l].presented
    ensures k == l
  {
    ReachableSound(s);
    assert Holds(s, Granted(k), Pay(s.grants[k].presented)) && Holds(s, Granted(l), Pay(s.grants[k].presented));
  }

  /** Over any run, refreshing a family returns at most as many access tokens as it has rotated rows. */
  lemma Conservation(s: State, family: nat)
    requires Reachable(s)
    ensures |PaidOut(s, family)| <= |NonRoots(s, family)|
  {
    ReachableSound(s);
    var paid := PaidOut(s, family);
    forall k | k in paid
      ensures GrantOk(s, s.grants[k])
    {
    }
    var successor := map k | k in paid :: SuccessorOf(s.tokens, s.grants[k].presented);
    forall k | k in paid
      ensures successor[k] in NonRoots(s, family)
    {
      assert LinkOk(s.tokens, successor[k]);
    }
    forall k, l | k in paid && l in paid && successor[k] == successor[l]
      ensures k == l
    {
      PaidOnce(s, k, l);
    }
    InjectionBound(paid, NonRoots(s, family), successor);
  }
}
