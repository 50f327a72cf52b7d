/**
 The database rows and, for every SQL statement the services issue against them, the
 statement's effect on the table. A table is a sequence in insertion order; a row's id is its
 position, so ids are fresh and are never reused.
 */
module Tables {
  import opened Basics

  /** Secrets, verifiers and their digests. SHA-256 is ideal: a constructor, hence injective. */
  datatype Text = Raw(n: nat) | Sha256(of: Text)

  datatype TokenStatus = Active | Rotated | Revoked

  datatype TokenRow = TokenRow(
    session: nat, user: nat, client: Option<nat>, hash: Text, family: nat,
    previous: Option<nat>, scope: string, status: TokenStatus, expiresAt: int)

  /**
   How a session came to be; asOf counts the times the user's password had been replaced when the
   sign-in read it. Not a column: a history value no statement reads.
   */
  datatype Origin = Password(asOf: nat) | SecondFactor(asOf: nat) | FromCode(code: nat)

  datatype SessionStatus = Open | Closed

  datatype SessionRow = SessionRow(
    user: nat, client: Option<nat>, origin: Origin, mfaPassed: bool, status: SessionStatus)

  datatype Method = S256 | Plain

  /** What the request that consumed a code presented; a history value behind consumed_at. */
  datatype Presented = Presented(client: nat, redirect: string, verifier: Text)

  datatype CodeRow = CodeRow(
    hash: Text, client: nat, user: nat, redirect: string, scope: string,
    challenge: Text, codeMethod: Method, expiresAt: int, consumed: Option<Presented>)

  datatype ClientRow = ClientRow(
    confidential: bool, secretHash: Option<Text>, redirects: seq<string>,
    allowedScopes: seq<string>, clientCredentials: bool, noSecretAuth: bool,
    requirePkce: bool, enabled: bool)

  datatype ResetRow = ResetRow(user: nat, hash: Text, expiresAt: int, used: bool)

  /** PkceUtil.matches. */
  predicate Matches(verifier: Text, challenge: Text, how: Method) {
    match how
    case S256 => Sha256(verifier) == challenge
    case Plain => verifier == challenge
  }

  /** The last row of a table that matches. */
  function IndexOf<Row>(t: seq<Row>, matching: Row -> bool): (r: Option<nat>)
    ensures r.Some? ==> r.value < |t| && matching(t[r.value])
    ensures r.None? ==> forall i :: 0 <= i < |t| ==> !matching(t[i])
  {
    if |t| == 0 then None
    else if matching(t[|t| - 1]) then Some(|t| - 1)
    else IndexOf(t[..|t| - 1], matching)
  }

  // refresh_tokens

  /** WHERE clauses of the revoking UPDATEs on refresh_tokens. */
  datatype TokenWhere =
    | OfFamily(family: nat)
    | WithHash(hash: Text)
    | ActiveOfSession(session: nat)
    | OfUser(user: nat)
    | OfUserAndClient(user: nat, client: nat)

  predicate Selects(w: TokenWhere, row: TokenRow) {
    match w
    case OfFamily(f) => row.family == f && row.status != Revoked
    case WithHash(h) => row.hash == h && row.status != Revoked
    case ActiveOfSession(sid) => row.session == sid && row.status == Active
    case OfUser(u) => row.user == u && row.status != Revoked
    case OfUserAndClient(u, c) => row.user == u && row.client == Some(c) && row.status != Revoked
  }

  /** UPDATE refresh_tokens SET status = 'revoked' WHERE ... */
  function RevokeTokens(t: seq<TokenRow>, w: TokenWhere): (t': seq<TokenRow>)
    ensures |t'| == |t|
    ensures forall i {:trigger t'[i]} {:trigger t[i]} :: 0 <= i < |t| ==>
      t'[i] == if Selects(w, t[i]) then t[i].(status := Revoked) else t[i]
  {
    seq(|t|, i requires 0 <= i < |t| => if Selects(w, t[i]) then t[i].(status := Revoked) else t[i])
  }

  /** SELECT ... WHERE token_hash = $1; the column is UNIQUE. */
  function TokenByHash(t: seq<TokenRow>, h: Text): (r: Option<nat>)
    ensures r.Some? ==> r.value < |t| && t[r.value].hash == h
    ensures r.None? ==> forall i :: 0 <= i < |t| ==> t[i].hash != h
  {
    IndexOf(t, (row: TokenRow) => row.hash == h)
  }

  /** The row the consuming UPDATE matches: this hash, still active, not expired. */
  function Consumable(t: seq<TokenRow>, h: Text, now: int): (r: Option<nat>)
    ensures r.Some? ==> r.value < |t| && t[r.value].hash == h && t[r.value].status == Active
  {
    var r := TokenByHash(t, h);
    if r.Some? && t[r.value].status == Active && t[r.value].expiresAt > now then r else None
  }

  /** The row inserted by a rotation of the given row. */
  function Successor(of: nat, row: TokenRow, secret: Text, expiresAt: int): TokenRow {
    TokenRow(row.session, row.user, row.client, Sha256(secret), row.family, Some(of), row.scope, Active, expiresAt)
  }

  // sessions

  datatype SessionWhere = ById(id: nat) | ByUser(user: nat)

  predicate SelectsSession(w: SessionWhere, id: nat, row: SessionRow) {
    row.status == Open && match w case ById(sid) => sid == id case ByUser(u) => row.user == u
  }

  /** UPDATE sessions SET status = 'revoked' WHERE ... AND status = 'active' */
  function CloseSessions(t: seq<SessionRow>, w: SessionWhere): (t': seq<SessionRow>)
    ensures |t'| == |t|
    ensures forall i {:trigger t'[i]} {:trigger t[i]} :: 0 <= i < |t| ==>
      t'[i] == if SelectsSession(w, i, t[i]) then t[i].(status := Closed) else t[i]
  {
    seq(|t|, i requires 0 <= i < |t| => if SelectsSession(w, i, t[i]) then t[i].(status := Closed) else t[i])
  }

  /** UPDATE sessions SET mfa_passed = TRUE WHERE id = $1 */
  function PassMfa(t: seq<SessionRow>, id: nat): (t': seq<SessionRow>) {
    if id < |t| then t[id := t[id].(mfaPassed := true)] else t
  }

  /** SELECT ... FROM sessions WHERE id = $1 */
  function SessionById(t: seq<SessionRow>, id: nat): Option<SessionRow> {
    if id < |t| then Some(t[id]) else None
  }

  // authorization_codes and password_reset_tokens

  function CodeByHash(t: seq<CodeRow>, h: Text): (r: Option<nat>)
    ensures r.Some? ==> r.value < |t| && t[r.value].hash == h
    ensures r.None? ==> forall i :: 0 <= i < |t| ==> t[i].hash != h
  {
    IndexOf(t, (row: CodeRow) => row.hash == h)
  }

  function ResetByHash(t: seq<ResetRow>, h: Text): (r: Option<nat>)
    ensures r.Some? ==> r.value < |t| && t[r.value].hash == h
    ensures r.None? ==> forall i :: 0 <= i < |t| ==> t[i].hash != h
  {
    IndexOf(t, (row: ResetRow) => row.hash == h)
  }

  /** The row UPDATE password_reset_tokens SET used_at = now() matches. */
  function Redeemable(t: seq<ResetRow>, h: Text, now: int): (r: Option<nat>)
    ensures r.Some? ==> r.value < |t| && t[r.value].hash == h && !t[r.value].used
  {
    var r := ResetByHash(t, h);
    if r.Some? && !t[r.value].used && t[r.value].expiresAt > now then r else None
  }
}
