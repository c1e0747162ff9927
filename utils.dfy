/**
 * Salted hashing and hash tokens (utils/utils.go).
 *
 * The same `HashString` code appears in handlers/auth.go, handlers/user.go
 * and auth/main.go, up to how the missing-salt error is built (handlers/user.go
 * formats it, the others use a fixed message); it is defined once here.
 * SHA-256 itself (FIPS 180-4) is a parameter: any function from strings to
 * 32-byte digests.  Loading the `.env` file and reading `HASH_SALT` are
 * likewise parameters, read once per request although the source reads them
 * again on every call.
 */
module Utils {
  import opened Wrappers
  import opened Bytes
  import opened Hex

  /** A SHA-256 digest: 32 bytes. */
  type Digest = d: seq<byte> | |d| == 32 witness seq(32, _ => 0 as byte)

  /**
   * What `HashString` finds in the process environment: whether
   * `godotenv.Load()` succeeds, the value of `HASH_SALT` ("" when unset),
   * and the hash function.
   */
  datatype HashEnv = HashEnv(dotenvLoads: bool, salt: Str, sha256: Str -> Digest)

  datatype HashError = DotenvFailed | SaltNotSet

  /**
   * `HashString(input)`: the lower-case hexadecimal SHA-256 digest of
   * `input` followed by the salt; fails when the `.env` file cannot be
   * loaded or the salt is empty.
   */
  function HashString(env: HashEnv, input: Str): (r: Result<Str, HashError>)
    ensures !env.dotenvLoads ==> r == Err(DotenvFailed)
    ensures env.dotenvLoads && env.salt == [] ==> r == Err(SaltNotSet)
    ensures r.Ok? <==> env.dotenvLoads && env.salt != []
    ensures r.Ok? ==> |r.value| == 64 && IsHex(r.value)
    ensures r.Ok? ==> HexDecode(r.value) == Some(env.sha256(input + env.salt))
  {
    if !env.dotenvLoads then Err(DotenvFailed)
    else if env.salt == [] then Err(SaltNotSet)
    else
      var digest := env.sha256(input + env.salt);
      HexDecodeEncode(digest);
      HexEncodeIsHex(digest);
      Ok(HexEncode(digest))
  }

  /** Two inputs hash alike exactly when their salted digests are equal. */
  lemma HashStringMatches(env: HashEnv, a: Str, b: Str)
    requires env.dotenvLoads && env.salt != []
    ensures HashString(env, a) == HashString(env, b) <==> env.sha256(a + env.salt) == env.sha256(b + env.salt)
  {
    var da, db := env.sha256(a + env.salt), env.sha256(b + env.salt);
    HexDecodeEncode(da);
    HexDecodeEncode(db);
  }

  /** The string `GenerateToken` hashes: the user id, a colon, the Unix time in seconds. */
  function TokenInput(userID: Str, now: int): Str
  {
    userID + [Colon] + FormatInt(now)
  }

  /** `GenerateToken(userID)` at Unix time `now`. */
  function GenerateToken(env: HashEnv, userID: Str, now: int): (r: Result<Str, HashError>)
    ensures r.Ok? <==> env.dotenvLoads && env.salt != []
    ensures r.Ok? ==> HexDecode(r.value) == Some(env.sha256(TokenInput(userID, now) + env.salt))
  {
    HashString(env, TokenInput(userID, now))
  }

  /**
   * The hashed string determines the user id and the time, as long as the
   * id has no colon: splitting it on ':' gives both back.
   */
  lemma TokenInputParses(userID: Str, now: int)
    requires Colon !in userID
    requires MinInt64 <= now <= MaxInt64
    ensures Split(TokenInput(userID, now), Colon) == [userID, FormatInt(now)]
    ensures Atoi(Split(TokenInput(userID, now), Colon)[1]) == Some(now)
  {
    var fields := [userID, FormatInt(now)];
    assert Join(fields, Colon) == TokenInput(userID, now) by {
      assert fields[1..] == [FormatInt(now)];
    }
    SplitJoin(fields, Colon);
    AtoiFormatInt(now);
  }

  /** The two results of `ValidateToken`: the bool, and whether an error came back. */
  datatype Verdict = Verdict(valid: bool, failed: bool)

  /** `ValidateToken(token)`: (true, nil) when `hex.DecodeString` accepts the token, else (false, err). */
  function ValidateToken(token: Str): (r: Verdict)
    ensures r.valid <==> IsHex(token)
    ensures r.failed <==> !IsHex(token)
  {
    HexDecodeSucceeds(token);
    if HexDecode(token).None? then Verdict(false, true) else Verdict(true, false)
  }

  /** Every token `GenerateToken` returns is accepted by `ValidateToken`. */
  lemma GeneratedTokensValidate(env: HashEnv, userID: Str, now: int)
    requires GenerateToken(env, userID, now).Ok?
    ensures ValidateToken(GenerateToken(env, userID, now).value) == Verdict(true, false)
  {
  }
}
