/** Access tokens over ideal signatures, and the denylist of revoked token ids. */
module Jwt {
  import opened Basics
  import opened Redis
  import opened Keys

  /** Seconds of clock skew a verifier tolerates. */
  const TOLERANCE: nat := 5

  /** signer is the key pair that signed it; a signature by one pair never verifies under another. */
  datatype Token = Token(
    alg: string, kid: Option<nat>, signer: nat, issuer: string, audience: string,
    sub: string, scope: string, jti: string, notBefore: int, expires: int)

  datatype Refusal = UnsupportedAlgorithm | UnknownKey | BadSignature | BadClaims | Expired | RevokedToken

  datatype Verdict = Accepted | Refused(why: Refusal)

  datatype Options = Options(issuer: string, audience: string, defaultTtl: nat)

  const PREFIX: string := "identity:jti:revoked:"

  function JtiKey(jti: string): string { PREFIX + jti }

  lemma JtiKeyInjective(a: string, b: string)
    requires JtiKey(a) == JtiKey(b)
    ensures a == b
  {
    assert JtiKey(a)[|PREFIX|..] == a && JtiKey(b)[|PREFIX|..] == b;
  }

  /** Math.max(1, Math.ceil(exp - t / 1000)), with t in milliseconds. */
  function DenylistTtl(expires: int, t: int): (ttl: nat)
    ensures ttl >= 1 && expires * 1000 <= t + ttl * 1000
    ensures t < expires * 1000 ==> t + ttl * 1000 < expires * 1000 + 1000
  {
    var left := -((t - expires * 1000) / 1000);
    if left > 1 then left else 1
  }

  predicate Denied(s: Store, jti: string, t: int) { Look(s, JtiKey(jti), t) == Some(Str("1")) }

  /** The key a token is checked against, from the provider's list: by kid, or else the newest. */
  function VerifyingKey(keys: seq<KeyFile>, kid: Option<nat>): Option<KeyFile> {
    if kid.Some? then Find(keys, kid.value) else if keys == [] then None else Some(keys[0])
  }

  /** verifyAccessToken at time t, in milliseconds. */
  function Verify(keys: seq<KeyFile>, s: Store, o: Options, tok: Token, t: int): Verdict {
    var key := VerifyingKey(keys, tok.kid);
    if tok.alg != "EdDSA" then Refused(UnsupportedAlgorithm)
    else if key.None? then Refused(UnknownKey)
    else if tok.signer != key.value.key then Refused(BadSignature)
    else if tok.issuer != o.issuer || tok.audience != o.audience || tok.notBefore > t / 1000 + TOLERANCE
      then Refused(BadClaims)
    else if tok.expires <= t / 1000 - TOLERANCE then Refused(Expired)
    else if Denied(s, tok.jti, t) then Refused(RevokedToken)
    else Accepted
  }

  /** The signing key a token names: the one with its kid, or the newest if it has none. */
  ghost predicate Names(history: seq<KeyFile>, tok: Token, f: KeyFile) {
    && f in history
    && if tok.kid.Some? then f.kid == tok.kid.value else f == history[|history| - 1]
  }

  /** The token is signed by the key it names. */
  ghost predicate Genuine(history: seq<KeyFile>, tok: Token) {
    tok.alg == "EdDSA" && exists f :: Names(history, tok, f) && f.key == tok.signer
  }

  /** It is from this issuer, for this audience, and no more than five seconds early. */
  predicate Addressed(o: Options, tok: Token, t: int) {
    tok.issuer == o.issuer && tok.audience == o.audience && tok.notBefore <= t / 1000 + 5
  }

  /** A live entry of the denylist holds 1 for its id. */
  predicate Listed(s: Store, tok: Token, t: int) {
    var key := "identity:jti:revoked:" + tok.jti;
    key in s && s[key].value == Str("1") && (s[key].deadline.Some? ==> t < s[key].deadline.value)
  }

  /** What each verdict means, against the keys ever made. */
  ghost predicate Means(v: Verdict, history: seq<KeyFile>, s: Store, o: Options, tok: Token, t: int) {
    var inTime := t / 1000 - 5 < tok.expires;
    match v
    case Accepted => Genuine(history, tok) && Addressed(o, tok, t) && inTime && !Listed(s, tok, t)
    case Refused(UnsupportedAlgorithm) => tok.alg != "EdDSA"
    case Refused(UnknownKey) => tok.alg == "EdDSA" && forall f :: !Names(history, tok, f)
    case Refused(BadSignature) => tok.alg == "EdDSA" && exists f :: Names(history, tok, f) && f.key != tok.signer
    case Refused(BadClaims) => Genuine(history, tok) && !Addressed(o, tok, t)
    case Refused(Expired) => Genuine(history, tok) && Addressed(o, tok, t) && !inTime
    case Refused(RevokedToken) => Genuine(history, tok) && Addressed(o, tok, t) && inTime && Listed(s, tok, t)
  }

  /** A token names at most one key. */
  lemma NamesOne(history: seq<KeyFile>, tok: Token, f: KeyFile, g: KeyFile)
    requires Growing(history) && Names(history, tok, f) && Names(history, tok, g)
    ensures f == g
  {
    if tok.kid.Some? {
      var i :| 0 <= i < |history| && history[i] == f;
      var j :| 0 <= j < |history| && history[j] == g;
    }
  }

  /** The key verification looks up is the one the token names. */
  lemma VerifyingKeyIsNamed(history: seq<KeyFile>, tok: Token)
    requires Growing(history)
    ensures var key := VerifyingKey(Reversed(history), tok.kid);
      if key.Some? then Names(history, tok, key.value) else forall f :: !Names(history, tok, f)
  {
    var r := Reversed(history);
    assert forall i :: 0 <= i < |r| ==> r[i] == history[|history| - 1 - i];
    assert forall i :: 0 <= i < |history| ==> history[i] == r[|history| - 1 - i];
    assert forall f :: f in r <==> f in history;
  }

  /** Every verdict is given exactly when it is meant, and exactly one is. */
  lemma VerifyExactly(history: seq<KeyFile>, s: Store, o: Options, tok: Token, t: int, v: Verdict)
    requires Growing(history)
    ensures Verify(Reversed(history), s, o, tok, t) == v <==> Means(v, history, s, o, tok, t)
  {
    VerifyingKeyIsNamed(history, tok);
    var key := VerifyingKey(Reversed(history), tok.kid);
    if key.Some? {
      forall f | Names(history, tok, f)
        ensures f == key.value
      {
        NamesOne(history, tok, f, key.value);
      }
    }
    assert JtiKey(tok.jti) == "identity:jti:revoked:" + tok.jti;
    assert Denied(s, tok.jti, t) <==> Listed(s, tok, t);
  }

  /** The token signAccessToken makes at time t with a key and a fresh jti. */
  function Signed(key: KeyFile, o: Options, sub: string, scope: string, jti: string, ttl: Option<nat>, t: int): Token {
    Token("EdDSA", Some(key.kid), key.key, o.issuer, o.audience, sub, scope, jti, t / 1000,
          t / 1000 + if ttl.Some? then ttl.value else o.defaultTtl)
  }

  /** One revokeUntil: its ttl is computed at time t, its SET executes at lands. */
  datatype Revocation = Revocation(jti: string, expires: int, t: int, lands: int)

  function Revoked(s: Store, v: Revocation): Store {
    s[JtiKey(v.jti) := Entry(Str("1"), Some(v.lands + DenylistTtl(v.expires, v.t) * 1000))]
  }

  function AllRevoked(s: Store, vs: seq<Revocation>): Store
    decreases |vs|
  {
    if vs == [] then s else AllRevoked(Revoked(s, vs[0]), vs[1..])
  }

  /** Revocations take time to land, and every revocation of a token carries the token's own expiry. */
  predicate Proper(vs: seq<Revocation>, jti: string, expires: int) {
    forall i :: 0 <= i < |vs| ==> vs[i].t <= vs[i].lands && (vs[i].jti == jti ==> vs[i].expires == expires)
  }

  predicate ListedUntil(s: Store, jti: string, until: int) {
    JtiKey(jti) in s && s[JtiKey(jti)].value == Str("1")
    && s[JtiKey(jti)].deadline.Some? && s[JtiKey(jti)].deadline.value >= until
  }

  lemma {:induction false} StaysListed(s: Store, vs: seq<Revocation>, jti: string, expires: int)
    requires ListedUntil(s, jti, expires * 1000) && Proper(vs, jti, expires)
    ensures ListedUntil(AllRevoked(s, vs), jti, expires * 1000)
    decreases |vs|
  {
    if vs != [] {
      if JtiKey(vs[0].jti) == JtiKey(jti) {
        JtiKeyInjective(vs[0].jti, jti);
      }
      assert forall i :: 0 <= i < |vs| - 1 ==> vs[1..][i] == vs[i + 1];
      StaysListed(Revoked(s, vs[0]), vs[1..], jti, expires);
    }
  }

  /**
   A denylisted token is refused at every time from the SET until its expiry, and from five
   seconds after its expiry on, whatever else is revoked later.
   */
  lemma RevokedIsRefused(keys: seq<KeyFile>, s: Store, o: Options, tok: Token, v: Revocation, later: seq<Revocation>,
        t: int)
    requires v.jti == tok.jti && v.expires == tok.expires && v.t <= v.lands && Proper(later, tok.jti, tok.expires)
    requires v.lands <= t < tok.expires * 1000 || (tok.expires + TOLERANCE) * 1000 <= t
    ensures Verify(keys, AllRevoked(Revoked(s, v), later), o, tok, t) != Accepted
  {
    StaysListed(Revoked(s, v), later, tok.jti, tok.expires);
  }

  /**
   In between, tolerance and denylist leave a gap: a revoked token that would be accepted but for
   the denylist is accepted again just when its entry has gone and its tolerance has not.
   */
  lemma GapAfterExpiry(keys: seq<KeyFile>, s: Store, o: Options, tok: Token, v: Revocation, t: int)
    requires v.jti == tok.jti && v.expires == tok.expires && v.t <= v.lands <= t
    requires VerifyingKey(keys, tok.kid).Some? && VerifyingKey(keys, tok.kid).value.key == tok.signer
    requires tok.alg == "EdDSA" && tok.issuer == o.issuer && tok.audience == o.audience && tok.notBefore * 1000 <= t
    ensures Verify(keys, Revoked(s, v), o, tok, t) == Accepted
       <==> v.lands + DenylistTtl(v.expires, v.t) * 1000 <= t < (tok.expires + TOLERANCE) * 1000
  {
    assert tok.notBefore <= t / 1000;
    assert tok.expires <= t / 1000 - TOLERANCE <==> (tok.expires + TOLERANCE) * 1000 <= t;
  }

  /**
   The gap is open for every token revoked, without delay, before it expires: at the second after
   expiry it is accepted.
   */
  lemma GapIsOpen(keys: seq<KeyFile>, s: Store, o: Options, tok: Token, t: int)
    requires VerifyingKey(keys, tok.kid).Some? && VerifyingKey(keys, tok.kid).value.key == tok.signer
    requires tok.alg == "EdDSA" && tok.issuer == o.issuer && tok.audience == o.audience
    requires tok.notBefore <= tok.expires && t < tok.expires * 1000
    ensures Verify(keys, Revoked(s, Revocation(tok.jti, tok.expires, t, t)), o, tok, (tok.expires + 1) * 1000) ==
      Accepted
  {
    GapAfterExpiry(keys, s, o, tok, Revocation(tok.jti, tok.expires, t, t), (tok.expires + 1) * 1000);
  }

  /** A token keeps verifying through any number of rotations until it is denylisted or expires. */
  lemma SignedStillVerifies(history: seq<KeyFile>, later: seq<KeyFile>, s: Store, o: Options,
                            sub: string, scope: string, jti: string, ttl: Option<nat>, at: int, t: int)
    requires |history| > 0 && Growing(history + later) && at <= t
    ensures var tok := Signed(history[|history| - 1], o, sub, scope, jti, ttl, at);
      Verify(Reversed(history + later), s, o, tok, t) == Accepted
      <==> !Denied(s, jti, t) && t < (tok.expires + TOLERANCE) * 1000
  {
    var tok := Signed(history[|history| - 1], o, sub, scope, jti, ttl, at);
    KidsAreStable(history, later, history[|history| - 1]);
    assert at / 1000 <= t / 1000;
    assert tok.expires <= t / 1000 - TOLERANCE <==> (tok.expires + TOLERANCE) * 1000 <= t;
  }

  class TokenRevocationService {
    const redis: RedisService

    constructor (redis: RedisService)
      ensures this.redis == redis
    {
      this.redis := redis;
    }

    method RevokeUntil(jti: string, expires: int, t: int, lands: int)
      modifies redis
      ensures redis.store == Revoked(old(redis.store), Revocation(jti, expires, t, lands))
    {
      var left := -((t - expires * 1000) / 1000);
      var ttl := if left > 1 then left else 1;
      redis.Set(JtiKey(jti), "1", Some(ttl), lands);
    }

    method IsRevoked(jti: string, t: int) returns (yes: bool)
      ensures yes == Denied(redis.store, jti, t)
    {
      var v := redis.Get(JtiKey(jti), t);
      yes := v == Some(Str("1"));
    }
  }

  class JwtService {
    const kms: LocalKeyProvider
    const options: Options
    var revocationChecker: Option<TokenRevocationService>

    constructor (kms: LocalKeyProvider, options: Options)
      ensures this.kms == kms && this.options == options && revocationChecker == None
    {
      this.kms, this.options, this.revocationChecker := kms, options, None;
    }

    method SetRevocationChecker(checker: TokenRevocationService)
      modifies this`revocationChecker
      ensures revocationChecker == Some(checker)
    {
      revocationChecker := Some(checker);
    }

    /** kid and key are what a first rotation would draw. */
    method SignAccessToken(sub: string, scope: string, jti: string, ttl: Option<nat>, now: int, kid: nat, key: nat)
      returns (tok: Token)
      requires kms.Valid() && kms.clock <= now
      modifies kms
      ensures kms.Valid() && |kms.history| > 0 && (old(kms.history) != [] ==> kms.history == old(kms.history))
      ensures tok == Signed(kms.history[|kms.history| - 1], options, sub, scope, jti, ttl, now)
      ensures tok.kid == Some(kms.history[|kms.history| - 1].kid) && Genuine(kms.history, tok)
      ensures tok.sub == sub && tok.scope == scope && tok.jti == jti && tok.notBefore == now / 1000
      ensures tok.expires == now / 1000 + (if ttl.Some? then ttl.value else options.defaultTtl)
    {
      var current := kms.GetCurrentSigningKey(now, kid, key, 0);
      var seconds := if ttl.Some? then ttl.value else options.defaultTtl;
      tok := Token("EdDSA", Some(current.kid), current.key, options.issuer, options.audience, sub, scope, jti,
                   now / 1000, now / 1000 + seconds);
      assert Names(kms.history, tok, current);
    }

    /** The denylist, empty if no checker is set. */
    ghost function DenylistStore(): Store
      reads this, if revocationChecker.Some? then {revocationChecker.value.redis} else {}
    {
      if revocationChecker.Some? then revocationChecker.value.redis.store else map[]
    }

    method VerifyAccessToken(tok: Token, t: int) returns (v: Verdict)
      requires kms.Valid()
      ensures revocationChecker.Some? ==>
        v == Verify(Reversed(kms.history), revocationChecker.value.redis.store, options, tok, t)
      ensures revocationChecker.None? ==> v == Verify(Reversed(kms.history), map[], options, tok, t)
      ensures Means(v, kms.history, DenylistStore(), options, tok, t)
    {
      VerifyExactly(kms.history, DenylistStore(), options, tok, t,
                    Verify(Reversed(kms.history), DenylistStore(), options, tok, t));
      if tok.alg != "EdDSA" { return Refused(UnsupportedAlgorithm); }
      var signing: Option<KeyFile>;
      if tok.kid.Some? {
        var files := kms.ListSigningKeyFiles();
        signing := Find(files, tok.kid.value);
      } else {
        var keys := kms.ListPublicKeys();
        signing := if |keys| == 0 then None else Some(keys[0]);
      }
      if signing.None? { return Refused(UnknownKey); }
      if tok.signer != signing.value.key { return Refused(BadSignature); }
      if tok.issuer != options.issuer || tok.audience != options.audience { return Refused(BadClaims); }
      if tok.notBefore > t / 1000 + TOLERANCE { return Refused(BadClaims); }
      if tok.expires <= t / 1000 - TOLERANCE { return Refused(Expired); }
      if revocationChecker.Some? {
        var revoked := revocationChecker.value.IsRevoked(tok.jti, t);
        if revoked { return Refused(RevokedToken); }
      }
      v := Accepted;
    }
  }
}
