/** Token helpers (internal/services/user.go): the claims of the access JWT and the raw
    refresh token. The clock is the parameter `now` (Unix seconds); HMAC signing is the
    parameter `sign`; the seeded `math/rand` source is the parameter `src`. */
module Services {
  import opened Wrappers
  import opened Encoding
  import opened AppErrors
  import opened Domain

  // ------------------------------------------------------------------
  // Access token
  // ------------------------------------------------------------------

  /** `time.Hour * 24`, in seconds. */
  const AccessTtl := 86400

  /** The `jwt.MapClaims` of the access token. */
  datatype Claims = Claims(sub: string, exp: int, iat: int)

  /** `jwt.NewWithClaims`: the signing method's name and the claims. */
  datatype UnsignedToken = UnsignedToken(alg: string, claims: Claims)

  /** `SignedString` with the configured secret: the compact token, or the signing error. */
  type Signer = UnsignedToken -> (string, Option<GoError>)

  /** The token `CreateJwtToken` signs for `user` at time `now`. */
  function AccessTokenFor(user: User, now: int): (t: UnsignedToken)
    ensures t.alg == "HS512"
    ensures t.claims.sub == user.guid
    ensures t.claims.iat == now && t.claims.exp == t.claims.iat + AccessTtl
  {
    UnsignedToken("HS512", Claims(user.guid, now + AccessTtl, now))
  }

  /** `CreateJwtToken`: the signed HS512 token over `sub`, `exp` and `iat`, or `""` and the
      signer's error. */
  function CreateJwtToken(user: User, now: int, sign: Signer): (r: (string, Option<GoError>))
    ensures r.1 == sign(AccessTokenFor(user, now)).1
    ensures r.1.Some? ==> r.0 == ""
    ensures r.1.None? ==> r.0 == sign(AccessTokenFor(user, now)).0
  {
    var (token, err) := sign(AccessTokenFor(user, now));
    if err.Some? then ("", err) else (token, None)
  }

  /** The time window in which the `exp`/`iat` checks of jwt-go v4 accept claims, in whole
      seconds: issued no later than `t`, expiring after `t`. */
  predicate AcceptedAt(c: Claims, t: int) {
    c.iat <= t < c.exp
  }

  /** An access token is accepted during exactly the 24 hours from its issue. */
  lemma AccessTokenWindow(user: User, now: int, t: int)
    ensures AcceptedAt(AccessTokenFor(user, now).claims, t) <==> now <= t < now + 24 * 3600
  {
  }

  // ------------------------------------------------------------------
  // Refresh token
  // ------------------------------------------------------------------

  /** A value of `Int63()`: non-negative and below 2^63. */
  type Int63 = x: int | 0 <= x < 0x8000_0000_0000_0000

  /** A seeded `math/rand` source: `src(seed, k)` is the k-th `Int63()` of
      `rand.NewSource(seed)`. */
  type Int63Source = (int, nat) -> Int63

  /** `v >> (8 * k)` for a non-negative `v`. */
  function Shift(v: nat, k: nat): nat {
    if k == 0 then v else Shift(v, k - 1) / 256
  }

  /** Byte i of what `(*Rand).Read` writes: each `Int63()` value yields seven bytes, lowest
      byte first. */
  function RandomByte(src: Int63Source, seed: int, i: nat): byte {
    Shift(src(seed, i / 7), i % 7) % 256
  }

  /** The first n bytes `(*Rand).Read` writes for a generator made from `seed`. */
  function RandomBytes(src: Int63Source, seed: int, n: nat): (b: seq<byte>)
    ensures |b| == n
    ensures forall i :: 0 <= i < n ==> b[i] == RandomByte(src, seed, i)
  {
    seq(n, i requires 0 <= i < n => RandomByte(src, seed, i))
  }

  lemma Septet(i: int, draws: int, pos: int)
    requires 0 < pos <= 7 && i == 7 * draws - pos
    ensures i / 7 == draws - 1 && i % 7 == 7 - pos
  {
  }

  /** `(*Rand).Read` on a fresh generator: fills `p` in place from successive `Int63()`
      values, seven bytes per value, and always returns `len(p)` and a nil error. */
  method Read(src: Int63Source, seed: int, p: array<byte>) returns (n: int, err: Option<GoError>)
    modifies p
    ensures n == p.Length && err == None
    ensures p[..] == RandomBytes(src, seed, p.Length)
  {
    var val: nat := 0;
    var pos := 0;
    var draws: nat := 0;
    var i := 0;
    while i < p.Length
      invariant 0 <= i <= p.Length
      invariant 0 <= pos < 7 && i == 7 * draws - pos
      invariant pos > 0 ==> draws > 0 && val == Shift(src(seed, draws - 1), 7 - pos)
      invariant forall j :: 0 <= j < i ==> p[j] == RandomByte(src, seed, j)
    {
      if pos == 0 {
        val := src(seed, draws);
        pos := 7;
        draws := draws + 1;
      }
      Septet(i, draws, pos);
      p[i] := val % 256;
      val := val / 256;
      pos := pos - 1;
      i := i + 1;
    }
    return p.Length, None;
  }

  /** The token `CreateRefreshToken` returns for a generator seeded with `seed`. */
  function RefreshTokenFor(src: Int63Source, seed: int): string {
    HexString(RandomBytes(src, seed, 32))
  }

  /** `CreateRefreshToken`: a 32-byte buffer filled by a generator seeded with the current
      Unix second, printed with `%x`. The error branch only prints and cannot be taken. */
  method CreateRefreshToken(now: int, src: Int63Source) returns (token: string)
    ensures token == RefreshTokenFor(src, now)
  {
    var buf := new byte[32](_ => 0);
    var n, err := Read(src, now, buf);
    token := HexString(buf[..]);
  }

  /** A refresh token is 64 lower-case hex digits, two per buffer byte, in buffer order. */
  lemma RefreshTokenShape(src: Int63Source, seed: int)
    ensures |RefreshTokenFor(src, seed)| == 64
    ensures forall i :: 0 <= i < 64 ==> IsLowerHexDigit(RefreshTokenFor(src, seed)[i])
    ensures forall k :: 0 <= k < 32 ==>
      RefreshTokenFor(src, seed)[2 * k] == HexDigit(RandomByte(src, seed, k) / 16) &&
      RefreshTokenFor(src, seed)[2 * k + 1] == HexDigit(RandomByte(src, seed, k) % 16)
  {
    HexStringLayout(RandomBytes(src, seed, 32));
  }

  /** Equal tokens come from equal buffers: `%x` loses nothing. */
  lemma RefreshTokenDeterminesBytes(src: Int63Source, seed1: int, seed2: int)
    requires RefreshTokenFor(src, seed1) == RefreshTokenFor(src, seed2)
    ensures RandomBytes(src, seed1, 32) == RandomBytes(src, seed2, 32)
  {
    HexInjective(RandomBytes(src, seed1, 32), RandomBytes(src, seed2, 32));
  }

  /** Two calls in the same Unix second return the same token. */
  method CreateTwoRefreshTokens(now: int, src: Int63Source) returns (first: string, second: string)
    ensures first == second
  {
    first := CreateRefreshToken(now, src);
    second := CreateRefreshToken(now, src);
  }
}
