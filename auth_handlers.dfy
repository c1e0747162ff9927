/**
 * Login and the token guard (handlers/auth.go).
 *
 * `HashString` and `ValidateToken` in this file are the ones of
 * utils/utils.go (`Utils`).  The `Authorization` header is read as
 * "<scheme> <payload>", the payload is base64-decoded and split on ':';
 * base64 decoding (section 4 of RFC 4648) is a parameter that may fail.
 * The user lookup is `GetUserByUsername` of the repository, also passed in,
 * and the clock is the Unix time `now`.
 */
module AuthHandlers {
  import opened Wrappers
  import opened Bytes
  import opened Hex
  import opened Store
  import opened Http
  import Utils

  /** `GenerateToken(userID int)`: the id in decimal, ':', the Unix time, hashed. */
  function GenerateToken(env: Utils.HashEnv, userID: Id, now: int): (r: Result<Str, Utils.HashError>)
    ensures r == Utils.GenerateToken(env, FormatInt(userID), now)
    ensures r.Ok? ==> HexDecode(r.value) == Some(env.sha256(FormatInt(userID) + [Colon] + FormatInt(now) + env.salt))
  {
    Utils.HashString(env, FormatInt(userID) + [Colon] + FormatInt(now))
  }

  /** Why an `Authorization` header yields no credentials. */
  datatype HeaderError = BadHeader | BadEncoding | BadFormat

  /**
   * The credential parsing shared by `Login` (n = 2) and sign-up (n = 3):
   * the header must be non-empty and split on ' ' into exactly two parts,
   * the second part must decode, and the decoded text must split on ':'
   * into exactly `n` fields.  The first part (the scheme) is not looked at.
   */
  function Credentials(header: Str, base64: Str -> Option<Str>, n: nat): (r: Result<seq<Str>, HeaderError>)
    ensures r == Err(BadHeader) <==> Count(header, Space) != 1
    ensures r.Ok? ==> |r.value| == n >= 1 && forall k :: 0 <= k < n ==> Colon !in r.value[k]
    ensures r.Ok? ==> |Split(header, Space)| == 2 && base64(Split(header, Space)[1]) == Some(Join(r.value, Colon))
  {
    var parts := Split(header, Space);
    SplitLength(header, Space);
    if header == [] || |parts| != 2 then Err(BadHeader)
    else match base64(parts[1])
      case None => Err(BadEncoding)
      case Some(decoded) =>
        var fields := Split(decoded, Colon);
        SplitFieldsFree(decoded, Colon);
        JoinSplit(decoded, Colon);
        if |fields| != n then Err(BadFormat) else Ok(fields)
  }

  /**
   * Every colon-free list of fields is recovered from a header whose
   * payload decodes to the fields joined by ':', whatever the scheme.
   */
  lemma CredentialsAccept(scheme: Str, payload: Str, fields: seq<Str>, base64: Str -> Option<Str>)
    requires Space !in scheme && Space !in payload
    requires |fields| >= 1 && forall k :: 0 <= k < |fields| ==> Colon !in fields[k]
    requires base64(payload) == Some(Join(fields, Colon))
    ensures Credentials(scheme + [Space] + payload, base64, |fields|) == Ok(fields)
  {
    var header := scheme + [Space] + payload;
    assert Join([scheme, payload], Space) == header by {
      assert [scheme, payload][1..] == [payload];
    }
    SplitJoin([scheme, payload], Space);
    assert header[|scheme|] == Space;
    SplitJoin(fields, Colon);
  }

  /** A payload with more than one ':' never yields two fields. */
  lemma ColonInPasswordRejected(header: Str, base64: Str -> Option<Str>, username: Str, password: Str)
    requires |Split(header, Space)| == 2
    requires base64(Split(header, Space)[1]) == Some(username + [Colon] + password)
    requires Colon in password
    ensures Credentials(header, base64, 2) == Err(BadFormat)
  {
    var decoded := username + [Colon] + password;
    CountAppend(username + [Colon], password, Colon);
    CountAppend(username, [Colon], Colon);
    CountZero(password, Colon);
    assert Count([Colon], Colon) == 1 by {
      assert [Colon][1..] == [];
    }
    SplitLength(decoded, Colon);
  }

  /** The JSON error messages of `Login`. */
  datatype LoginMessage =
    | InvalidAuthorizationHeader
    | InvalidCredentialsEncoding
    | InvalidCredentialsFormat
    | InvalidCredentials
    | LoginFailed

  /** 401 for every header or credential problem, 500 when hashing fails, 200 with the token. */
  function Login(header: Str, base64: Str -> Option<Str>, lookup: Str -> Result<User, DbError>,
                 env: Utils.HashEnv, now: int): (r: Response<LoginMessage, Str>)
    ensures r.Reply? ==> r.status == StatusOK
    ensures r.Failure? ==> r.status == StatusUnauthorized || (r.status == StatusInternalServerError && r.message == LoginFailed)
  {
    match Credentials(header, base64, 2)
    case Err(BadHeader) => Failure(StatusUnauthorized, InvalidAuthorizationHeader)
    case Err(BadEncoding) => Failure(StatusUnauthorized, InvalidCredentialsEncoding)
    case Err(BadFormat) => Failure(StatusUnauthorized, InvalidCredentialsFormat)
    case Ok(credentials) =>
      var username, password := credentials[0], credentials[1];
      match lookup(username)
      case Err(_) => Failure(StatusUnauthorized, InvalidCredentials)
      case Ok(user) =>
        match Utils.HashString(env, password)
        case Err(_) => Failure(StatusInternalServerError, LoginFailed)
        case Ok(hashedPassword) =>
          if hashedPassword != user.passwordHash then Failure(StatusUnauthorized, InvalidCredentials)
          else match GenerateToken(env, user.id, now)
            case Err(_) => Failure(StatusInternalServerError, LoginFailed)
            case Ok(token) => Reply(StatusOK, token)
  }

  /** The header is refused exactly when it does not hold exactly one space. */
  lemma LoginHeaderRule(header: Str, base64: Str -> Option<Str>, lookup: Str -> Result<User, DbError>,
                        env: Utils.HashEnv, now: int)
    ensures Login(header, base64, lookup, env, now) == Failure(StatusUnauthorized, InvalidAuthorizationHeader)
            <==> Count(header, Space) != 1
  {
  }

  /**
   * A token is issued exactly when the credentials parse, the user exists
   * and the stored hash is the hash of the given password; it is then the
   * token of that user's id.
   */
  lemma LoginIssuesToken(header: Str, base64: Str -> Option<Str>, lookup: Str -> Result<User, DbError>,
                         env: Utils.HashEnv, now: int)
    ensures var r := Login(header, base64, lookup, env, now);
            var c := Credentials(header, base64, 2);
            r.Reply? <==> c.Ok? && lookup(c.value[0]).Ok?
                          && Utils.HashString(env, c.value[1]) == Ok(lookup(c.value[0]).value.passwordHash)
    ensures var r := Login(header, base64, lookup, env, now);
            var c := Credentials(header, base64, 2);
            r.Reply? ==> r.body == GenerateToken(env, lookup(c.value[0]).value.id, now).value
  {
  }

  /**
   * An unknown user and a known user with a wrong password get the same
   * answer: the response does not tell which usernames exist.
   */
  lemma UnknownUserLikeWrongPassword(header: Str, base64: Str -> Option<Str>,
                                     unknown: Str -> Result<User, DbError>, known: Str -> Result<User, DbError>,
                                     env: Utils.HashEnv, now: int)
    requires Credentials(header, base64, 2).Ok?
    requires var username := Credentials(header, base64, 2).value[0];
             unknown(username).Err? && known(username).Ok?
    requires var c := Credentials(header, base64, 2).value;
             Utils.HashString(env, c[1]).Ok? && Utils.HashString(env, c[1]).value != known(c[0]).value.passwordHash
    ensures Login(header, base64, unknown, env, now) == Login(header, base64, known, env, now)
                                                   == Failure(StatusUnauthorized, InvalidCredentials)
  {
  }

  /**
   * Under one reading of the environment, once the password hash is
   * computed token generation cannot fail: the second 500 is never sent.
   */
  lemma LoginTokenStepNeverFails(header: Str, base64: Str -> Option<Str>, lookup: Str -> Result<User, DbError>,
                                 env: Utils.HashEnv, now: int)
    ensures var r := Login(header, base64, lookup, env, now);
            r.Failure? && r.message == LoginFailed ==> !(env.dotenvLoads && env.salt != [])
  {
  }

  /** The error messages of `AuthMiddleware`: "[am-300]" and "[am-301]". */
  datatype GuardMessage = MissingAuthToken | InvalidAuthToken

  /** A guarded handler's result: a 401 rejection, or the result of the next handler. */
  datatype Guarded<R> = Rejected(status: int, message: GuardMessage) | Forwarded(result: R)

  /** `AuthMiddleware(next)` on a request whose `Authorization` header is `token`. */
  function AuthMiddleware<R>(next: R, token: Str): (r: Guarded<R>)
    ensures r == Rejected(StatusUnauthorized, MissingAuthToken) <==> token == []
    ensures r == Rejected(StatusUnauthorized, InvalidAuthToken) <==> token != [] && !IsHex(token)
    ensures r == Forwarded(next) <==> token != [] && IsHex(token)
  {
    if token == [] then Rejected(StatusUnauthorized, MissingAuthToken)
    else
      var verdict := Utils.ValidateToken(token);
      if verdict.failed || !verdict.valid then Rejected(StatusUnauthorized, InvalidAuthToken)
      else Forwarded(next)
  }

  /** Every token `Login` issues passes the guard. */
  lemma IssuedTokensPassGuard<R>(next: R, header: Str, base64: Str -> Option<Str>,
                                 lookup: Str -> Result<User, DbError>, env: Utils.HashEnv, now: int)
    requires Login(header, base64, lookup, env, now).Reply?
    ensures AuthMiddleware(next, Login(header, base64, lookup, env, now).body) == Forwarded(next)
  {
  }
}
