/**
 * The authentication service (auth/main.go): sign-up and login as plain
 * functions returning a token or an error, over the users table.
 *
 * `HashString` and `GenerateToken` are the same code as `Utils.HashString`
 * and `AuthHandlers.GenerateToken`.  This file's `ValidateToken` differs:
 * it reports invalid hex through its bool only, never through its error.
 */
module AuthService {
  import opened Wrappers
  import opened Bytes
  import opened Hex
  import opened Store
  import Utils
  import AuthHandlers

  /** `ValidateToken`: (whether `hex.DecodeString` accepts the token, nil). */
  function ValidateToken(token: Str): (r: Utils.Verdict)
    ensures r.valid <==> IsHex(token)
    ensures !r.failed
  {
    HexDecodeSucceeds(token);
    Utils.Verdict(HexDecode(token).Some?, false)
  }

  /** The two `ValidateToken`s agree on validity; only the utils one reports an error. */
  lemma ValidateTokensAgree(token: Str)
    ensures ValidateToken(token).valid == Utils.ValidateToken(token).valid
    ensures Utils.ValidateToken(token).failed == !ValidateToken(token).valid
  {
  }

  /** The errors of `CreateUser` and `Login`, by their tags. */
  datatype AuthError =
    | Cu100    // the duplicate check failed
    | Cu101    // username or email already exists
    | Cu102    // hashing failed
    | Cu103    // the insert failed
    | Cu104    // token generation failed
    | TokenError(cause: Utils.HashError)   // token generation failed in Login, returned unwrapped
    | Ln200    // no such user, or the query failed
    | Ln201    // hashing failed
    | Ln202    // wrong password

  /** Some stored user has this username or this email. */
  ghost predicate UsernameOrEmailTaken(users: map<Id, UserRow>, username: Str, email: Str)
  {
    exists id :: id in users && (users[id].username == username || users[id].email == email)
  }

  /**
   * `CreateUser(username, email, password)`: refuse a username or email
   * already in use, insert the user with the salted hash of the password,
   * and return a token for the new id.  Nothing is inserted unless every
   * check before the insert passes.
   */
  method CreateUser(repo: Repository, username: Str, email: Str, password: Str, env: Utils.HashEnv, now: int,
                    countFault: bool, insertFault: bool) returns (r: Result<Str, AuthError>)
    requires repo.Valid()
    modifies repo
    ensures repo.Valid()
    ensures r == Err(Cu100) <==> countFault
    ensures r == Err(Cu101) <==> !countFault && UsernameOrEmailTaken(old(repo.users), username, email)
    ensures !countFault && !UsernameOrEmailTaken(old(repo.users), username, email) ==>
              r == (if Utils.HashString(env, password).Err? then Err(Cu102)
                    else if insertFault then Err(Cu103)
                    else Ok(AuthHandlers.GenerateToken(env, old(repo.nextId), now).value))
    ensures r.Ok? ==> old(repo.nextId) !in old(repo.users)
                      && repo.users == old(repo.users)[old(repo.nextId) := UserRow(username, email, Utils.HashString(env, password).value)]
    ensures r.Err? ==> repo.users == old(repo.users)
    ensures unchanged(repo`aiModels, repo`chats, repo`messages)
  {
    if countFault {
      return Err(Cu100);
    }
    var matching := set id | id in repo.users && (repo.users[id].username == username || repo.users[id].email == email);
    var count := |matching|;
    if count > 0 {
      Inhabited(matching);
      return Err(Cu101);
    }
    assert forall id :: id in repo.users ==> repo.users[id].username != username && repo.users[id].email != email by {
      forall id | id in repo.users
        ensures repo.users[id].username != username && repo.users[id].email != email
      {
        assert (repo.users[id].username == username || repo.users[id].email == email) ==> id in matching;
      }
    }
    var hashed := Utils.HashString(env, password);
    if hashed.Err? {
      return Err(Cu102);
    }
    var created := repo.CreateUser(User(NilId, username, email, hashed.value), insertFault);
    if created.Err? {
      return Err(Cu103);
    }
    var token := AuthHandlers.GenerateToken(env, created.value.id, now);
    if token.Err? {
      return Err(Cu104);
    }
    return Ok(token.value);
  }

  /**
   * `Login(username, password)`: `lookup` is the query for the id and
   * password hash of a user with that username.  A failure of the final
   * token generation is returned as the hashing error itself.
   */
  function Login(lookup: Str -> Result<User, DbError>, username: Str, password: Str,
                 env: Utils.HashEnv, now: int): (r: Result<Str, AuthError>)
  {
    match lookup(username)
    case Err(_) => Err(Ln200)
    case Ok(user) =>
      match Utils.HashString(env, password)
      case Err(_) => Err(Ln201)
      case Ok(hashedPassword) =>
        if hashedPassword != user.passwordHash then Err(Ln202)
        else match AuthHandlers.GenerateToken(env, user.id, now)
          case Err(e) => Err(TokenError(e))
          case Ok(token) => Ok(token)
  }

  /**
   * Login succeeds exactly when the user is found and the stored hash is
   * the hash of the password, and then returns that user's token; each
   * failure has its own tag.
   */
  lemma LoginOutcomes(lookup: Str -> Result<User, DbError>, username: Str, password: Str,
                      env: Utils.HashEnv, now: int)
    ensures var r := Login(lookup, username, password, env, now);
            && (r == Err(Ln200) <==> lookup(username).Err?)
            && (r == Err(Ln201) <==> lookup(username).Ok? && Utils.HashString(env, password).Err?)
            && (r == Err(Ln202) <==> lookup(username).Ok? && Utils.HashString(env, password).Ok?
                                     && Utils.HashString(env, password).value != lookup(username).value.passwordHash)
            && (r.Ok? <==> lookup(username).Ok? && Utils.HashString(env, password) == Ok(lookup(username).value.passwordHash))
            && (r.Ok? ==> r.value == AuthHandlers.GenerateToken(env, lookup(username).value.id, now).value)
            && (r.Err? ==> !r.error.TokenError?)
  {
  }

  /** The error messages of `AuthMiddleware`: "[am-300]" and "[am-301]". */
  function AuthMiddleware<R>(next: R, token: Str): (r: AuthHandlers.Guarded<R>)
  {
    if token == [] then AuthHandlers.Rejected(401, AuthHandlers.MissingAuthToken)
    else
      var verdict := ValidateToken(token);
      if verdict.failed || !verdict.valid then AuthHandlers.Rejected(401, AuthHandlers.InvalidAuthToken)
      else AuthHandlers.Forwarded(next)
  }

  /** The service's guard and the handlers' guard answer every request alike. */
  lemma AuthMiddlewaresAgree<R>(next: R, token: Str)
    ensures AuthMiddleware(next, token) == AuthHandlers.AuthMiddleware(next, token)
  {
  }
}
