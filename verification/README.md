# Verification of the identity platform's token, session and guard logic

The identity platform issues access tokens and rotating refresh tokens to first-party users and to
OAuth clients. Its state lives in SQL tables and in Redis, and every request is a sequence of single
SQL statements and Redis commands with no transaction around them. The promises worth having are
therefore about interleavings: what holds when any number of requests are at any statement.

## How the model is laid out

- `Tables`, `Machine`: the tables, the session cache and the challenges as a value `State`; a request
  in flight as a program counter (`Proc`) that names the statement it executes next and carries its
  local variables; `Apply` executes one event (one statement of one request, an arriving request, a
  crash at any statement, a cache eviction, the clock, an administrator's change); `Run` is any
  sequence of events, and `Reachable` holds of the states at the end of a run from the empty server.
- `Invariant`, `Preservation`, `Steps`: what every event keeps. The centre is `Exclusive`: each claim
  (to be a family's live end, to succeed a token, to be paid for a token, to use a code, to use a
  reset token, to be the root of a session) has at most one holder, be it a row, a request between two
  statements, or a history entry.
- `Families`, `Sessions`, `Closing`, `Passwords`, `OAuth`, `Mfa`, `Scopes`: the guarantees over whole runs.
- `Requests`: for each kind of request, exactly when some run hands it an access token.
- `Server`, `Services`, `Endpoints`: the services in their own form, as classes whose methods execute
  their statements one by one against mutable fields. Between any two statements a method lets the other
  requests do anything (`others`), and each statement is proved to be a step of `Machine`, so every
  execution is a run and inherits what is proved about runs.
- `Redis`, `RateLimit`, `Lockout` with `Overlap`, `Jwt`, `Keys`: the guards with time arithmetic, each a
  small state machine with a bound over every trace and, where the source has one, a class.

## What is assumed

- SHA-256 is injective (`Text` makes it a constructor). A secret, family id or challenge id is fresh
  when it is used; in the service methods a secret whose hash is taken violates the UNIQUE constraint
  and fails the request.
- A row's id is its position in its table. One SQL statement or Redis command is one atomic step.
- One shared clock that never goes back. Times are milliseconds. A Redis key counts as gone at its deadline;
  Redis drops it only once the clock has passed the deadline, so where a statement about the rate limiter or
  the denylist turns on equality, the server's answer changes one millisecond later.
- Signatures are ideal: a token signed by one key pair never verifies under another.
- Verdicts the model does not compute are inputs: whether a password, a TOTP code or a new password
  passes, what a risk evaluation decides, which session an access token names, whether the
  user is an administrator.
- `grants`, `checks`, `changes`, `origin` and what a code's consumer presented are histories. No
  statement reads them. A refresh is recorded as paid when its access token is signed, a sign-in when its
  refresh token is inserted (the source signs first, and returns neither if the INSERT fails), so requests
  that die after that count as paid.

## Where code and comments differ

The code is followed in each case.

- An expired but still active refresh token takes the reuse path
  (`src/modules/tokens/refresh-token.service.ts:80`, 104-121), although the comment there speaks of replay
  (`Families.ConsumesExactly`, `Families.DeadTokenIsReuse`).
- Reuse raises an `AppError`, so the translation at `src/modules/oauth/oauth.service.ts:269` is not
  taken; only the effect on the tables is modelled.
- A refresh token presented by another client is rotated first and only its own row is revoked
  (`src/modules/oauth/oauth.service.ts:287-297`); its successor stays active (`Families.MismatchLeavesSuccessor`).
- A refresh token is said to be usable by its own client only (`src/modules/oauth/oauth.service.ts:286`); the
  first-party endpoint never looks at the client (`OAuth.ClientTokenPaidTo`, `Requests.FirstPartyPaysAnyClient`).
- The session cache is deleted by a scan at password reset and not at all at reuse; the scan is an
  arbitrary set of keys here, and the guarantees do not rest on it.
- The rate limiter is described as atomic (`src/modules/rate-limit/rate-limit.middleware.ts:24`), but INCR and
  EXPIRE are two commands; the bound is proved for commands that land late or never.
- The denylist promises refusal until natural expiry; verification tolerates five more seconds, in which a
  revoked token is accepted again (`Jwt.GapAfterExpiry`, `Jwt.GapIsOpen`).
- Login asks for a verified e-mail address, but a lock overwrites the status that says it is not
  (`Lockout.UnverifiedGetsIn`, `Lockout.LockoutLetsUnverifiedIn`). It overwrites `disabled` just the same, when
  a login was already under way (`Lockout.DisabledComesBack`).
- A password reset closes every session, but a sign-in that had checked the old password may still insert its
  own afterwards (`Passwords.OldPasswordExactly`).

## Model

| member | source | states |
|---|---|---|
| Families.ReachableInv | src/modules/tokens/refresh-token.service.ts:70-124 | the invariant (one holder for every claim, sound rows, requests and histories, unique hashes) holds after every run from the empty server |
| Families.ReachableSound | src/modules/tokens/refresh-token.service.ts:70-124 | every reachable state satisfies that invariant |
| Families.RunKept | src/modules/tokens/refresh-token.service.ts:70-135 | along any run from a sound state: statuses only move forward, immutable columns never change, and a claim that has lapsed is never revived |
| Families.OneLiveEnd | src/modules/tokens/refresh-token.service.ts:77-99 | in every interleaving of statements, active tokens of a family plus rotations between their UPDATE and their INSERT are at most one |
| Families.FamilyIsChain | src/modules/tokens/refresh-token.service.ts:91-98 | in every reachable state a family is one acyclic, unbranched path from a single root; all rows share session, user, client and scope; only the last may be active |
| Families.DeadForever | src/modules/tokens/refresh-token.service.ts:78-84 | a family with no active token and no rotation in flight stays so for ever, gains no row, and no consuming UPDATE matches a member again |
| Families.RevocationKills | src/modules/tokens/refresh-token.service.ts:102-143 | a revoking UPDATE that covers a family (reuse, refused refresh, logout, reset, replay, RFC 7009) kills it if and only if no rotation of it is between its two statements |
| Families.ActiveStandsAlone | src/modules/tokens/refresh-token.service.ts:78-84 | an active token is its family's only one and excludes a rotation in flight |
| Families.RevokingActiveTokenEndsFamily | src/modules/tokens/refresh-token.service.ts:127-135 | RFC 7009 revocation of the active token changes one row and ends the whole family for ever |
| Families.ReuseKillsFamily | src/modules/tokens/refresh-token.service.ts:104-115 | reuse detection with no rotation in flight leaves the family dead in every later state |
| Families.ReuseClosesSession | src/modules/tokens/refresh-token.service.ts:116-121 | its second statement closes the reused token's session, for ever |
| Families.MismatchLeavesSuccessor | src/modules/oauth/oauth.service.ts:287-297 | a refresh by another client, with any events between its INSERT and its revoking UPDATE: the INSERT makes the successor nobody was given the family's one active token, and the UPDATE revokes the presented row, takes no active token away and ends the request unpaid |
| Families.ConsumesExactly | src/modules/tokens/refresh-token.service.ts:77-85 | the consuming UPDATE on a token's hash rotates that token and nothing else if it is active and not expired at that moment; otherwise it changes no table and the request goes on to the reuse SELECT |
| Families.TokenExpires | src/modules/tokens/refresh-token.service.ts:44-57 | REFRESH_TOKEN_TTL after a state, whatever happens in between, the UPDATE misses every token that was in it |
| Families.ExpiryOnlyExtends | src/modules/tokens/refresh-token.service.ts:91-98 | in every reachable state a successor expires no earlier than the token it replaced |
| Families.DeadTokenIsReuse | src/modules/tokens/refresh-token.service.ts:80-121 | a request that presents a known token that is not active or has expired, as the rightful client's retry does, is taken as reuse, with any events between its three statements; the last leaves the family dead if and only if no rotation of it is in flight |
| Families.PaidOnce | src/modules/auth/auth.service.ts:212-258 | across both refresh endpoints, a presented token pays for at most one access token |
| Families.Conservation | src/modules/tokens/refresh-token.service.ts:77-99 | over any run the access tokens returned by refreshing a family number at most its non-root rows |
| Sessions.RevocationWins | src/modules/auth/auth.service.ts:215-222 | once a session is closed, only a request that had already read it as open (or had just created it) can still be paid for it |
| Sessions.RefusedRefreshKillsFamily | src/modules/oauth/oauth.service.ts:299-304 | a refresh that finds its session closed, as its family's only rotation in flight, pays nothing and leaves the family dead for ever |
| Sessions.FindByIdIsDatabaseRead | src/modules/sessions/session.repository.ts:56-80 | under any interleaving, the cached read returns the status a direct read would have returned at some moment of the call, and an open result is the row of that moment |
| Closing.ClosedExactly | src/modules/auth/auth.service.ts:215-222 | once a session is closed, a refresh token of it is ever paid for again if and only if a refresh of it is in flight that has read the session as open and asks for no scope the token lacks |
| Closing.ReuseLeavesOnlyPayers | src/modules/tokens/refresh-token.service.ts:116-121 | the same after reuse detection, with rotations in flight or not |
| Closing.ResetEndsOldTokens | src/modules/auth/auth.service.ts:353-364 | after the statement of a reset that closes the user's sessions, a token issued to the user before it yields an access token only to a request that had read the session as open by then |
| Closing.ResetExactly | src/modules/auth/auth.service.ts:353-364 | some later run pays for one of the user's old tokens if and only if, at that statement, a refresh of such a token is in flight that has read its session as open and came by the first-party endpoint or asks for no scope the token lacks |
| Closing.PayerAtResetIsReachable | src/modules/auth/auth.service.ts:353-364 | such a moment is reachable: for every user a run from the empty server ends at that statement with such a refresh in flight |
| Passwords.OnlyLaterSessionsOpen | src/modules/auth/auth.service.ts:353-364 | a session of the user that is open in any later state was inserted after that statement |
| Passwords.OldPasswordExactly | src/modules/auth/auth.service.ts:395-410 | some later run leaves open a session whose sign-in had checked a password from before the reset if and only if, when that statement runs, such a sign-in has passed its check and not yet inserted its session |
| Passwords.StaleSignInIsReachable | src/modules/auth/auth.service.ts:69-98 | such a moment is reachable for every user, in a run from the empty server |
| Closing.ResetChangesPasswordOnce | src/modules/users/email-token.service.ts:61-72 | a reset token changes the password at most once, over any run |
| Closing.SpentByAcceptedPassword | src/modules/auth/auth.service.ts:353-359 | over any run an unused reset token is spent if and only if a request presented it in time with a password the policy accepts |
| Closing.LogoutKillsFamilies | src/modules/sessions/session.repository.ts:93-97 | the token UPDATE of a logout kills a family of the session if and only if no rotation of it is in flight, and then for ever |
| Closing.ResetKillsFamilies | src/modules/sessions/session.repository.ts:111-115 | the token UPDATE of a password reset kills a family of the user if and only if no rotation of it is in flight, and then for ever |
| OAuth.CodeIsSingleUse | src/modules/oauth/authorization-code.repository.ts:149-159 | in every interleaving a code creates at most one session and at most one family root |
| OAuth.ExchangeWasBound | src/modules/oauth/authorization-code.repository.ts:116-160 | the exchange that created them presented the code's own client and redirect URI and a verifier that meets its challenge |
| OAuth.CodeBindingFixed | src/modules/oauth/authorization-code.repository.ts:60-81 | client, redirect URI, scope, challenge and method of a code never change after authorize |
| OAuth.PeekDecides | src/modules/oauth/oauth.service.ts:200-225 | the peek lets a request go on if and only if the code is bound, unconsumed, unexpired and the verifier matches; it changes no table either way |
| OAuth.ReplayIsDetected | src/modules/oauth/authorization-code.repository.ts:99-107 | a presented code with its own client and redirect URI is treated as a replay if and only if it was consumed |
| OAuth.ReplayKillsFamilies | src/modules/oauth/authorization-code.repository.ts:166-174 | the replay response kills, for ever, exactly those families of the code's user and client that have no rotation in flight |
| OAuth.ReplayEndsDerivedTokens | src/modules/oauth/oauth.service.ts:484-494 | with no exchange of the code and no rotation pending, no token derived from the code is active in any later state |
| OAuth.ChainKeepsOriginalScope | src/modules/tokens/refresh-token.service.ts:91-98 | every row of a chain obtained with a code stores the code's scope, after any number of narrowed refreshes |
| OAuth.ScopesNeverGrow | src/modules/oauth/oauth.service.ts:306-312 | the scope words of every access token obtained with a code lie within the code's and within its client's allowed scopes; a client token's lie within the client's |
| OAuth.RefreshedScope | src/modules/oauth/oauth.service.ts:306-312 | in every reachable state a refreshed token has exactly the scope words the OAuth request asked for, all of them stored with the presented token, or, if it asked for none or came by the first-party endpoint, the stored scope |
| OAuth.SignInScope | src/modules/auth/auth.service.ts:417-434 | the scope of every sign-in is the one its session's first refresh token stores |
| OAuth.FirstPartyScope | src/modules/auth/auth.service.ts:474-479 | every refresh token of a session no code opened stores the four standard words, or those and api.write |
| OAuth.CodeIsRegistered | src/modules/oauth/oauth.service.ts:90-110 | in every reachable state a code is for a redirect URI and scope words its client is registered with, and for S256 if the client requires PKCE |
| OAuth.ClientTokenIsEntitled | src/modules/oauth/oauth.service.ts:343-370 | every token of a client's own went to a confidential client registered for the grant and for secret authentication, for at least one word and only words it is allowed |
| OAuth.AllowedScopesFixed | src/modules/clients/client.repository.ts:43-79 | a client's allowed scopes are fixed at creation |
| OAuth.ClientTokenPaidTo | src/modules/oauth/oauth.service.ts:286-297 | over any run, a refresh token of a client is paid for only to a request of that client or at the first-party endpoint |
| Requests.FirstPartyPaysAnyClient | src/modules/auth/auth.service.ts:212-258 | some run pays a first-party refresh that presents a live token of an open session, whichever client the token belongs to |
| OAuth.ClientTokenIsReachable | src/modules/oauth/oauth.service.ts:240-248 | for every user a run from the empty server issues a client's token that may be refreshed that way |
| Requests.RefreshPaysExactly | src/modules/oauth/oauth.service.ts:265-330 | some run hands a refresh that is about to present a token an access token for it if and only if the token is active and not expired, its session is open and, at the OAuth endpoint, the client is its own and every scope word asked for is stored |
| Requests.ExchangePaysExactly | src/modules/oauth/oauth.service.ts:198-248 | some run hands a request that is about to look a code up tokens if and only if a code with this hash, for this client and redirect URI and a challenge the verifier meets, is neither consumed nor expired; they are then for a new session with the code's scope |
| Requests.ChallengePaysExactly | src/modules/auth/auth.service.ts:195-210 | some run hands a request that is about to look a challenge up tokens if and only if the challenge is there, was failed less than three times and is for an open session; they are then for that session with the default scope |
| Requests.AuthorizeIssuesExactly | src/modules/oauth/oauth.service.ts:72-135 | a code bound to what was asked is issued if and only if the client is enabled, the redirect URI registered, every scope word allowed, the method S256 where PKCE is required, and a user signed in; otherwise nothing changes |
| Requests.TokenEndpointAdmits | src/modules/oauth/oauth.service.ts:168-196 | the code and refresh grants go on if and only if the client is enabled and presents its secret, if confidential, and none, if public |
| Requests.CredentialsPayExactly | src/modules/oauth/oauth.service.ts:343-394 | a client gets a token of its own if and only if it is enabled, confidential, set up for secrets and this grant, presents its secret and asks for words it is allowed, at least one; the token has exactly those words |
| Requests.DisabledClientIsRefused | src/modules/clients/client.repository.ts:97-99 | from when an administrator disables a client until one enables it, authorize and the token endpoint refuse it |
| Requests.OnlyTheNewSecret | src/modules/clients/client.repository.ts:82-95 | from when a confidential client's secret is replaced until it is again, that secret and no other authenticates it |
| Scopes.SplitJoin | src/modules/oauth/oauth.service.ts:307-312 | splitting scope words that were joined with single spaces gives back the same words in order |
| Scopes.NarrowedNeverGrows | src/modules/oauth/oauth.service.ts:306-312 | a narrowed scope has exactly the requested words, all of them in the stored scope |
| Mfa.TokensNeedSecondFactor | src/modules/mfa/mfa.service.ts:99-121 | in every run a session opened for a challenge has refresh-token rows only if mfa_passed is set, and that only after a code for it passed |
| Mfa.AtMostThreeChecks | src/modules/mfa/mfa.service.ts:101-120 | with one verification of a challenge in flight at a time, over any run and with crashes anywhere: at most three codes checked and at most one passed, plus one for each verification that died after its verdict and before the statement that makes it stick |
| Mfa.ThreeCodesAreChecked | src/modules/mfa/mfa.service.ts:104-114 | the three are reached: serial requests have three wrong codes checked against a new challenge, and the next one finds it used up and deletes it |
| Mfa.CrashesUnbounded | src/modules/mfa/mfa.service.ts:109-114 | that allowance is needed: serial requests that each check a wrong code and die before the attempt is written back check any number of codes against an open challenge |
| Mfa.OverlappingChecksUnbounded | src/modules/mfa/mfa.service.ts:101-120 | so is the condition: without any crash, any number of requests that read an open challenge together all have their codes checked, and all may pass |
| Mfa.OpenChallengeIsReachable | src/modules/mfa/mfa.service.ts:85-93 | for every user and challenge id a run from the empty server ends with an open challenge and no request in flight |
| RateLimit.WindowBound | src/modules/rate-limit/rate-limit.middleware.ts:30-43 | for one key, every trace and every n, an interval of n windows holds at most (n + 1) * limit - 1 admitted requests, however late or lost the EXPIREs |
| RateLimit.BoundIsReached | src/modules/rate-limit/rate-limit.middleware.ts:30-43 | no smaller bound holds: for every limit, n >= 1 and window of two ticks or more some trace reaches it |
| RateLimit.Middleware.Handle | src/modules/rate-limit/rate-limit.middleware.ts:26-47 | one request with other requests' commands between its INCR and its EXPIRE is that trace; it passes if and only if its count is within the limit, and a refusal carries a positive Retry-After which is the time left, or the window if none is known |
| RateLimit.Middleware.Serve | src/infrastructure/redis/redis.service.ts:65-69 | any trace of commands on the key, executed on the store, admits exactly as many requests as the trace says |
| Redis.RedisService.DelByPrefix | src/infrastructure/redis/redis.service.ts:53-62 | whatever the order and repetition of the SCAN pages, exactly the keys with the prefix are gone |
| Redis.RedisService.Set | src/infrastructure/redis/redis.service.ts:29-32 | a ttl of zero or none gives a key without expiry, any other the deadline |
| Redis.RedisService.Incr | src/infrastructure/redis/redis.service.ts:66-66 | INCR on a live key keeps its deadline; on a missing or expired one it starts at 1 without a deadline |
| Overlap.LockoutBound | src/modules/auth/auth.service.ts:93-123 | with at most m logins in flight at a time, k wrong passwords evaluated since the counter was cleared, not counting logins that died before recording or locking, take at least (k - MAX_FAILED_LOGINS - 2 (m - 1)) / m lockouts; with a limit of one failure only m - 1 are deducted; with one login at a time it is (k - MAX_FAILED_LOGINS) lockouts |
| Overlap.LockoutBoundIsReached | src/modules/users/user.repository.ts:74-87 | no larger bound holds, for any policy, any m and any number of lockouts |
| Lockout.OverlappingLoginsUnbounded | src/modules/auth/auth.service.ts:98-106 | with no limit on the logins in flight there is no bound: any number of wrong passwords is evaluated at one instant |
| Lockout.ClearingStartsOver | src/modules/users/user.repository.ts:89-110 | after a sign-in or a new password, fewer than MAX_FAILED_LOGINS wrong passwords, one at a time, count from zero and lock nothing |
| Lockout.UnverifiedGetsIn | src/modules/auth/auth.service.ts:125-127 | an account that starts unverified and is never verified lets a right password in if and only if, before the login read the row, a lock was written or an administrator set the status, and no status gate closes |
| Lockout.LockoutLetsUnverifiedIn | src/modules/users/user.repository.ts:81-87 | it happens under every policy without an administrator: MAX_FAILED_LOGINS wrong passwords and one lockout later such an account is let in |
| Lockout.DisabledComesBack | src/modules/users/user.repository.ts:81-87 | a disabled account that no administrator touches lets logins try again in some run if and only if a login is in flight that will lock it should its password be wrong |
| Lockout.DisabledWhileLoggingIn | src/modules/roles/rbac.repository.ts:103-108 | under every policy a run disables an account while such a login is in flight |
| Lockout.UserRepository.Login | src/modules/auth/auth.service.ts:69-127 | login up to the e-mail gate, with others in every pause, is a run of the counter's state machine; it is refused if and only if a status gate closes, and accepted if and only if the password is right and the row it read is verified |
| Lockout.UserRepository.LockUntil | src/modules/users/user.repository.ts:81-87 | the lock is only ever moved later, and sets the status whatever it was |
| Lockout.UserRepository.ClearLockAndFailures | src/modules/users/user.repository.ts:89-97 | the counter is zero, there is no lock, and only a locked status becomes active |
| Lockout.UserRepository.RecordFailedLogin | src/modules/users/user.repository.ts:74-79 | the stored counter goes up by one |
| Lockout.UserRepository.UpdatePasswordHash | src/modules/users/user.repository.ts:103-110 | the counter is zero, there is no lock, the status is kept |
| Lockout.UserRepository.SetUserStatus | src/modules/roles/rbac.repository.ts:103-108 | the status is set whatever it was, and nothing else |
| Jwt.DenylistTtl | src/modules/tokens/token-revocation.ts:13-16 | the ttl is at least 1, lasts at least until the token's expiry, and less than a second longer if the token had not expired |
| Jwt.RevokedIsRefused | src/modules/tokens/token-revocation.ts:13-21 | a token denylisted before its expiry is refused from the SET until exp and from exp + 5 seconds on, whatever is revoked later |
| Jwt.GapAfterExpiry | src/modules/tokens/jwt.service.ts:121-130 | an otherwise good denylisted token is accepted again if and only if its entry has expired and the tolerance has not |
| Jwt.GapIsOpen | src/modules/tokens/jwt.service.ts:121-130 | for every token revoked before its expiry that gap contains an accepting moment |
| Jwt.SignedStillVerifies | src/modules/tokens/jwt.service.ts:64-135 | a signed token verifies after any number of rotations if and only if it is not denylisted and not five seconds past its expiry |
| Jwt.VerifyExactly | src/modules/tokens/jwt.service.ts:107-135 | acceptance and every refusal are given exactly when they are meant: accepted if and only if the algorithm is EdDSA, the key of the kid, or the newest without one, signed it, issuer and audience match, it is neither five seconds early nor five late, and no live denylist entry holds 1 |
| Jwt.TokenRevocationService.RevokeUntil | src/modules/tokens/token-revocation.ts:13-16 | the entry is written with the computed ttl, counted from when the SET executes |
| Jwt.TokenRevocationService.IsRevoked | src/modules/tokens/token-revocation.ts:18-21 | a token id is denied if and only if a live entry holds 1 |
| Jwt.JwtService.SignAccessToken | src/modules/tokens/jwt.service.ts:64-101 | signs with the newest key, making one first if there is none; subject, scope, id, start and expiry are the given ones |
| Jwt.JwtService.VerifyAccessToken | src/modules/tokens/jwt.service.ts:107-135 | the verdict means what it says of the token, the keys ever made and the denylist, if a checker is set |
| Jwt.JwtService.SetRevocationChecker | src/modules/tokens/jwt.service.ts:60-62 | from then on verification consults that denylist, and nothing else changes |
| Keys.ListIsReversedHistory | src/modules/keys/local-key-provider.ts:158-163 | in whatever order the directory lists its files, the signing keys come out newest first, none lost and none doubled |
| Keys.SortedSorts | src/modules/keys/local-key-provider.ts:162-162 | sorting keeps every file and puts the newest first |
| Keys.CurrentAfter | src/modules/keys/local-key-provider.ts:165-178 | a new file becomes the current key if and only if it is newer than every other, which a restarted provider does not ensure |
| Keys.KidsAreStable | src/modules/keys/local-key-provider.ts:180-190 | a kid keeps naming the key it was made with, whatever is rotated in later |
| Keys.LocalKeyProvider.RotateSigningKey | src/modules/keys/local-key-provider.ts:202-220 | under a non-decreasing clock each rotation appends a strictly newer key |
| Keys.LocalKeyProvider.GetCurrentSigningKey | src/modules/keys/local-key-provider.ts:165-178 | returns the last key made; its recursion ends after at most one rotation |
| Keys.LocalKeyProvider.ListSigningKeyFiles | src/modules/keys/local-key-provider.ts:158-163 | lists the history newest first |
| Keys.LocalKeyProvider.ListPublicKeys | src/modules/keys/local-key-provider.ts:191-200 | the second sort changes nothing |
| Keys.LocalKeyProvider.GetPublicKey | src/modules/keys/local-key-provider.ts:180-190 | finds a key of that kid in the history, or there is none |
| Services.ReachedInv | src/modules/tokens/refresh-token.service.ts:70-124 | every state the service methods reach satisfies the invariant of reachable states |
| Services.SessionRepository.FindById | src/modules/sessions/session.repository.ts:56-69 | with others between its statements, returns what a direct read would have answered at some moment of the call |
| Services.SessionRepository.LoadFresh | src/modules/sessions/session.repository.ts:71-80 | the same for the read that fills the cache |
| Services.SessionRepository.Revoke | src/modules/sessions/session.repository.ts:87-99 | with others between its three statements, at the end the session is closed and no refresh token it had at the start is active |
| Services.SessionRepository.RevokeAllForUser | src/modules/sessions/session.repository.ts:101-118 | with others between, at the end every session the user had at the start is closed and none of the user's refresh tokens of then is active |
| Services.RefreshTokenService.Consume | src/modules/tokens/refresh-token.service.ts:70-100 | gets past its first statement if and only if the token with the presented hash is active and not expired then; otherwise reuse or unknown; leaves its request where the transition system does |
| Services.RefreshTokenService.HandleReuseOrInvalid | src/modules/tokens/refresh-token.service.ts:102-124 | reuse if and only if the hash is known, and then the session is closed |
| Services.RefreshTokenService.Issue | src/modules/tokens/refresh-token.service.ts:36-63 | inserts the successor if and only if its hash is new, and fails otherwise |
| Services.RefreshTokenService.RevokeByToken | src/modules/tokens/refresh-token.service.ts:127-135 | no row with the hash is left unrevoked |
| Endpoints.AuthService.Refresh | src/modules/auth/auth.service.ts:212-258 | a returned access token was paid for with the presented token, active and not expired at the first statement, has its session and scope, and the session was open at some moment of the call; it is refused only if no such token was presented or, at some moment of the call, its session was not open or the drawn secret was taken |
| Endpoints.AuthService.LogoutSession | src/modules/auth/auth.service.ts:285-290 | the session is closed, none of its refresh tokens of the start is active, and the presented one is revoked |
| Endpoints.AuthService.ResetPassword | src/modules/auth/auth.service.ts:353-364 | succeeds if and only if the policy accepts and the token with that hash is unused and not expired; then every session the user had is closed and no refresh token the user had is active, else nothing changed |
| Endpoints.AuthService.CompleteMfaChallenge | src/modules/auth/auth.service.ts:195-210 | tokens only for a right code on a challenge failed less than three times, whose session was open at some moment of the call; a right code is refused only if, at some moment, the session was not open or what was drawn was taken |
| Endpoints.AuthService.VerifyLoginChallenge | src/modules/mfa/mfa.service.ts:109-120 | passes if and only if the code is right, and only then goes on to read the session |
| Endpoints.AuthService.IssueSessionTokens | src/modules/auth/auth.service.ts:395-410 | a login without second factor gets a new session of the user and the default scope; it fails only if what was drawn was taken |
| Scopes.DefaultScopeWords | src/modules/auth/auth.service.ts:474-479 | the scope string of a first-party login splits into the four standard words, and api.write if and only if the user is an administrator |
| Endpoints.AuthService.DefaultScopeForRoles | src/modules/auth/auth.service.ts:474-479 | the string it builds splits into exactly those words for the roles given |
| Endpoints.AuthService.ChallengeLogin | src/modules/auth/auth.service.ts:171-188 | the MFA branch of login: a new session of the user and a challenge for it with no attempts; it fails only if the drawn id was |
| Endpoints.Answer | src/modules/oauth/oauth.service.ts:299-312 | an access token if and only if the session read is open and every scope word asked for is stored; it has exactly the words asked for, or else the stored scope |
| Endpoints.OAuthService.Authorize | src/modules/oauth/oauth.service.ts:72-135 | a code row bound to client, user, redirect URI, scope and challenge only if the client is enabled, the redirect URI registered, every scope word allowed, PKCE as required and a user signed in; otherwise no change; a request that meets all that is refused only if the drawn secret was taken |
| Endpoints.OAuthService.Identify | src/modules/oauth/oauth.service.ts:175-196 | a request goes on to its code or to its refresh token if and only if the client is enabled and authenticates as its kind must; a credentials grant pays if and only if the client may use it and every scope word is allowed, and with exactly those words |
| Endpoints.OAuthService.Token | src/modules/oauth/oauth.service.ts:175-394 | an access token of any grant goes to an enabled, authenticated client: a bound code, a session open during the call, or, if and only if it is entitled to it, a token of its own with the words asked for |
| Endpoints.OAuthService.RefreshToken | src/modules/oauth/oauth.service.ts:265-340 | as AuthService.Refresh, only for a token of the client's own, and with exactly the scope words asked for if there are any; refused only for the same reasons, for another client's token or for a scope word not stored |
| Endpoints.OAuthService.ExchangeCode | src/modules/oauth/oauth.service.ts:198-248 | tokens only for a session made for a code whose client, redirect URI and challenge the request met; refused only if at some moment of the call no code could be exchanged for what was presented, or what was drawn was taken |
| Endpoints.OAuthService.WinAndIssue | src/modules/oauth/authorization-code.repository.ts:148-159 | a request that finds the code consumed by its UPDATE gets nothing; one that wins it signs in on a session made for that code |
| Endpoints.OAuthService.Revoke | src/modules/oauth/oauth.service.ts:438-467 | a known refresh token ends up revoked, for good; otherwise the access token's session is closed |
| Machine.RecordedIsRun | src/modules/tokens/refresh-token.service.ts:70-124 | every state recorded while the service methods execute is the one the transition system reaches by the logged events |
| Machine.ReachableIsRun | src/modules/tokens/refresh-token.service.ts:70-124 | the reachable states are exactly the ends of runs from the empty server |
| Server.Database.RotateActive | src/modules/tokens/refresh-token.service.ts:78-84 | of the rows with the hash, the one that is active and not expired becomes rotated and is returned; the rest of the table stays |
| Server.Database.InsertNext | src/modules/tokens/refresh-token.service.ts:91-98 | the successor row, with the grant of its predecessor and REFRESH_TOKEN_TTL to live |
| Server.Database.RevokeIfRefresh | src/modules/oauth/oauth.service.ts:439-448 | the first statement of an RFC 7009 revocation, and whether it found a refresh token |
| Server.Database.RevokeOfSession | src/modules/sessions/session.repository.ts:93-97 | exactly the active tokens of the session become revoked |
| Server.Database.RevokeAllOf | src/modules/sessions/session.repository.ts:111-115 | exactly the tokens of the user become revoked |
| Server.Database.RevokeReused | src/modules/tokens/refresh-token.service.ts:111-115 | exactly the tokens of the family become revoked |
| Server.Database.CloseAllOf | src/modules/sessions/session.repository.ts:106-110 | exactly the sessions of the user become closed |
| Server.Database.SelectById | src/modules/sessions/session.repository.ts:72-77 | the session row |
| Server.Database.SetSession | src/modules/sessions/session.repository.ts:78-78 | the cache fill |
| Server.Database.IdentifyClient | src/modules/oauth/oauth.service.ts:175-196 | client lookup and authentication for each grant is the transition system's step; a token is handed out and recorded for a credentials grant only, to that client and with the words asked for |
| Server.Database.Consume | src/modules/oauth/authorization-code.repository.ts:149-159 | the flip of consumed_at, won or lost |

## Left out

- Form-field presence checks, schemas, HTTP status codes and error names: one-branch claims.
- Audit records, risk scoring, e-mail sending, `last_seen` and `last_used` columns, nonce and id_token
  claims, `/auth/me`, introspection's projection of claims: output only.
- Argon2, AES-GCM, Ed25519, TOTP, HKDF and the master key: their results are inputs or ideal.
- Session expiry: the column is stored and never read.
- Enrolling and disabling a second factor, e-mail verification, role and permission queries, client
  listing: single statements of the same shape as those modelled. A code without a challenge is not
  modelled, since authorize always stores one.
- The two SELECTs of authorize (client, then user) are one step; nothing either reads is changed by it.
- The SCAN cursor: `Redis.RedisService.DelByPrefix` takes the pages as given and does not return the
  count of deleted keys; logout's count of revoked sessions is left out with it.
- The service classes start a refresh, an exchange or a revocation after request parsing, and the access
  token an RFC 7009 revocation names is an input of `Endpoints.OAuthService.Revoke`; its denylist entry is
  `Jwt.TokenRevocationService.RevokeUntil`.
- OAuth.ReplayEndsDerivedTokens: refresh tokens only, because the replay response does not touch access tokens.
- Access tokens already handed out before a session was closed keep verifying until they expire.
- Overlap.LockoutBound: one account and at most m logins in flight, because unlimited ones have no bound
  (`Lockout.OverlappingLoginsUnbounded`).
- Keys.LocalKeyProvider.RotateSigningKey: one provider starting without keys, because a restarted one
  starts its sequence again; `Keys.CurrentAfter` says when a rotated key takes over then.
- The gateway's remote verifier, Express wiring, migrations and deployment files.
