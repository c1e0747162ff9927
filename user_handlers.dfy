/**
 * The user endpoints (handlers/user.go): sign-up with credentials in the
 * `Authorization` header, and read, update and delete by the numeric id in
 * the path.
 *
 * `hashString` and `generateToken` of this file are the same code as
 * `Utils.HashString` and `AuthHandlers.GenerateToken`, and are used as such.
 * The JSON form of a user leaves out the password hash (its field is tagged
 * `json:"-"`), both when a user is written out and when one is read in.
 */
module UserHandlers {
  import opened Wrappers
  import opened Bytes
  import opened Store
  import opened Http
  import Utils
  import AuthHandlers

  /** The error messages of the user endpoints. */
  datatype UserMessage =
    | InvalidAuthorizationHeader
    | InvalidCredentialsEncoding
    | InvalidCredentialsFormat
    | FieldsRequired
    | UsernameTaken      // [cu-101]
    | HashFailed         // [cu-102]
    | InsertFailed       // [cu-103]
    | TokenFailed        // [cu-104]
    | InvalidUserId
    | UserNotFound
    | InvalidPayload
    | UpdateFailed
    | DeleteFailed

  /** The modelled columns of a user as JSON shows it: never the password hash. */
  datatype PublicUser = PublicUser(id: Id, username: Str, email: Str)

  /** The user fields a JSON request body can set (the hash cannot be set). */
  datatype UserPayload = UserPayload(id: Id, username: Str, email: Str)

  datatype UserBody = TokenBody(token: Str) | UserJson(user: PublicUser) | NoBody

  type UserResponse = Response<UserMessage, UserBody>

  /** Some stored user already has this username. */
  ghost predicate Taken(users: map<Id, UserRow>, username: Str)
  {
    exists id :: id in users && users[id].username == username
  }

  /** Sign-up reaches the insert: the credentials are well formed, non-empty and the username is free (or the lookup failed). */
  ghost predicate SignUpAdmitted(users: map<Id, UserRow>, header: Str, base64: Str -> Option<Str>, lookupFault: bool)
  {
    var c := AuthHandlers.Credentials(header, base64, 3);
    c.Ok? && c.value[0] != [] && c.value[1] != [] && c.value[2] != []
    && (lookupFault || !Taken(users, c.value[0]))
  }

  /**
   * `CreateUser`: parse "username:email:password" from the header, refuse
   * empty fields and a taken username, store the salted hash of the
   * password and answer 201 with a token for the new id.
   */
  method CreateUser(repo: Repository, header: Str, base64: Str -> Option<Str>, env: Utils.HashEnv, now: int,
                    lookupFault: bool, insertFault: bool) returns (r: UserResponse)
    requires repo.Valid()
    modifies repo
    ensures repo.Valid()
    ensures var c := AuthHandlers.Credentials(header, base64, 3);
            && (c == Err(AuthHandlers.BadHeader) ==> r == Failure(StatusBadRequest, InvalidAuthorizationHeader))
            && (c == Err(AuthHandlers.BadEncoding) ==> r == Failure(StatusBadRequest, InvalidCredentialsEncoding))
            && (c == Err(AuthHandlers.BadFormat) ==> r == Failure(StatusBadRequest, InvalidCredentialsFormat))
            && (r == Failure(StatusBadRequest, FieldsRequired) <==> c.Ok? && [] in c.value)
            && (r == Failure(StatusConflict, UsernameTaken) <==>
                  c.Ok? && [] !in c.value && !lookupFault && Taken(old(repo.users), c.value[0]))
    ensures SignUpAdmitted(old(repo.users), header, base64, lookupFault) ==>
              var password := AuthHandlers.Credentials(header, base64, 3).value[2];
              r == (if Utils.HashString(env, password).Err? then Failure(StatusInternalServerError, HashFailed)
                    else if insertFault then Failure(StatusInternalServerError, InsertFailed)
                    else Reply(StatusCreated, TokenBody(AuthHandlers.GenerateToken(env, old(repo.nextId), now).value)))
    ensures r.Reply? ==>
              var c := AuthHandlers.Credentials(header, base64, 3).value;
              && old(repo.nextId) !in old(repo.users)
              && repo.users == old(repo.users)[old(repo.nextId) := UserRow(c[0], c[1], Utils.HashString(env, c[2]).value)]
    ensures r.Failure? ==> repo.users == old(repo.users)
    ensures unchanged(repo`aiModels, repo`chats, repo`messages)
  {
    var parsed := AuthHandlers.Credentials(header, base64, 3);
    if parsed == Err(AuthHandlers.BadHeader) {
      return Failure(StatusBadRequest, InvalidAuthorizationHeader);
    } else if parsed == Err(AuthHandlers.BadEncoding) {
      return Failure(StatusBadRequest, InvalidCredentialsEncoding);
    } else if parsed.Err? {
      return Failure(StatusBadRequest, InvalidCredentialsFormat);
    }
    var credentials := parsed.value;
    var username, email, password := credentials[0], credentials[1], credentials[2];
    if username == [] || email == [] || password == [] {
      return Failure(StatusBadRequest, FieldsRequired);
    }
    var existing := repo.GetUserByUsername(username, lookupFault);
    if existing.Ok? {
      return Failure(StatusConflict, UsernameTaken);
    }
    var hashed := Utils.HashString(env, password);
    if hashed.Err? {
      return Failure(StatusInternalServerError, HashFailed);
    }
    var created := repo.CreateUser(User(NilId, username, email, hashed.value), insertFault);
    if created.Err? {
      return Failure(StatusInternalServerError, InsertFailed);
    }
    var token := AuthHandlers.GenerateToken(env, created.value.id, now);
    if token.Err? {
      return Failure(StatusInternalServerError, TokenFailed);
    }
    return Reply(StatusCreated, TokenBody(token.value));
  }

  /** `GetUser`: 400 for a path id `strconv.Atoi` refuses, 404 for any lookup error, else the user. */
  method GetUser(repo: Repository, idParam: Str, fault: bool) returns (r: UserResponse)
    ensures r == Failure(StatusBadRequest, InvalidUserId) <==> Atoi(idParam).None?
    ensures r == Failure(StatusNotFound, UserNotFound) <==>
              Atoi(idParam).Some? && (fault || Atoi(idParam).value !in repo.users)
    ensures r.Reply? ==>
              var id := Atoi(idParam).value;
              id in repo.users && r == Reply(StatusOK, UserJson(PublicUser(id, repo.users[id].username, repo.users[id].email)))
  {
    var id := Atoi(idParam);
    if id.None? {
      return Failure(StatusBadRequest, InvalidUserId);
    }
    var user := repo.GetUserByID(id.value, fault);
    if user.Err? {
      return Failure(StatusNotFound, UserNotFound);
    }
    return Reply(StatusOK, UserJson(PublicUser(user.value.id, user.value.username, user.value.email)));
  }

  /**
   * What `UpdateUser` answers: 400 for a path id `strconv.Atoi` refuses or
   * a body that does not bind, 500 when the statement fails, and otherwise
   * 200 with the path id and the body's username and email.  An id with no
   * row is no error: the UPDATE then matches nothing.
   */
  function UpdateAnswer(idParam: Str, payload: Option<UserPayload>, fault: bool): (r: UserResponse)
    ensures r.Reply? ==> r.status == StatusOK && Atoi(idParam).Some? && payload.Some?
    ensures r.Failure? ==> r.status in {StatusBadRequest, StatusInternalServerError}
  {
    match Atoi(idParam)
    case None => Failure(StatusBadRequest, InvalidUserId)
    case Some(id) =>
      if payload.None? then Failure(StatusBadRequest, InvalidPayload)
      else if fault then Failure(StatusInternalServerError, UpdateFailed)
      else Reply(StatusOK, UserJson(PublicUser(id, payload.value.username, payload.value.email)))
  }

  /**
   * `UpdateUser`: the id from the path replaces any id in the body, and the
   * bound user goes to the repository as it is, with an empty password hash.
   */
  method UpdateUser(repo: Repository, idParam: Str, payload: Option<UserPayload>, fault: bool) returns (r: UserResponse)
    requires repo.Valid()
    modifies repo
    ensures repo.Valid()
    ensures r == UpdateAnswer(idParam, payload, fault)
    ensures r == Failure(StatusBadRequest, InvalidUserId) <==> Atoi(idParam).None?
    ensures r == Failure(StatusBadRequest, InvalidPayload) <==> Atoi(idParam).Some? && payload.None?
    ensures r == Failure(StatusInternalServerError, UpdateFailed) <==> Atoi(idParam).Some? && payload.Some? && fault
    ensures r.Reply? <==> Atoi(idParam).Some? && payload.Some? && !fault
    ensures r.Reply? ==>
              var id, p := Atoi(idParam).value, payload.value;
              && r == Reply(StatusOK, UserJson(PublicUser(id, p.username, p.email)))
              && repo.users == if id in old(repo.users) then old(repo.users)[id := UserRow(p.username, p.email, [])]
                               else old(repo.users)
    ensures r.Failure? ==> repo.users == old(repo.users)
    ensures unchanged(repo`aiModels, repo`chats, repo`messages, repo`nextId)
  {
    var id := Atoi(idParam);
    if id.None? {
      return Failure(StatusBadRequest, InvalidUserId);
    }
    if payload.None? {
      return Failure(StatusBadRequest, InvalidPayload);
    }
    var user := User(payload.value.id, payload.value.username, payload.value.email, []);
    user := user.(id := id.value);
    var updated := repo.UpdateUser(user, fault);
    if updated.Err? {
      return Failure(StatusInternalServerError, UpdateFailed);
    }
    return Reply(StatusOK, UserJson(PublicUser(user.id, user.username, user.email)));
  }

  /**
   * A user whose stored hash is empty can never log in, whatever the
   * request: every password hashes to 64 hexadecimal digits.
   */
  lemma EmptyHashLocksOut(header: Str, base64: Str -> Option<Str>, lookup: Str -> Result<User, DbError>,
                          user: User, env: Utils.HashEnv, now: int)
    requires user.passwordHash == []
    requires var c := AuthHandlers.Credentials(header, base64, 2);
             c.Ok? ==> lookup(c.value[0]) == Ok(user)
    ensures AuthHandlers.Login(header, base64, lookup, env, now).Failure?
  {
  }

  /**
   * `UpdateUser` as evidently intended: the stored password hash is kept.
   * The current row is read first and its hash goes back unchanged; an id
   * with no row changes nothing, as before.  With a working lookup the
   * answers are exactly those of `UpdateUser`; a failing lookup is a 500.
   */
  method UpdateUserKeepingPassword(repo: Repository, idParam: Str, payload: Option<UserPayload>,
                                   lookupFault: bool, fault: bool) returns (r: UserResponse)
    requires repo.Valid()
    modifies repo
    ensures repo.Valid()
    ensures !lookupFault ==> r == UpdateAnswer(idParam, payload, fault)
    ensures r == Failure(StatusBadRequest, InvalidUserId) <==> Atoi(idParam).None?
    ensures r == Failure(StatusBadRequest, InvalidPayload) <==> Atoi(idParam).Some? && payload.None?
    ensures r == Failure(StatusInternalServerError, UpdateFailed) <==>
              Atoi(idParam).Some? && payload.Some? && (lookupFault || fault)
    ensures r.Reply? ==>
              var id, p := Atoi(idParam).value, payload.value;
              && r == Reply(StatusOK, UserJson(PublicUser(id, p.username, p.email)))
              && repo.users == if id in old(repo.users)
                               then old(repo.users)[id := UserRow(p.username, p.email, old(repo.users)[id].passwordHash)]
                               else old(repo.users)
    ensures forall id :: id in old(repo.users) ==> id in repo.users && repo.users[id].passwordHash == old(repo.users)[id].passwordHash
    ensures r.Failure? ==> repo.users == old(repo.users)
    ensures unchanged(repo`aiModels, repo`chats, repo`messages, repo`nextId)
  {
    var id := Atoi(idParam);
    if id.None? {
      return Failure(StatusBadRequest, InvalidUserId);
    }
    if payload.None? {
      return Failure(StatusBadRequest, InvalidPayload);
    }
    var current := repo.GetUserByID(id.value, lookupFault);
    var hash: Str := [];
    if current.Ok? {
      hash := current.value.passwordHash;
    } else if current.error != NoRows {
      return Failure(StatusInternalServerError, UpdateFailed);
    }
    var user := User(id.value, payload.value.username, payload.value.email, hash);
    var updated := repo.UpdateUser(user, fault);
    if updated.Err? {
      return Failure(StatusInternalServerError, UpdateFailed);
    }
    return Reply(StatusOK, UserJson(PublicUser(user.id, user.username, user.email)));
  }

  /** `DeleteUser`: 400 for a bad path id, 500 when the statement fails, else 204 with no body. */
  method DeleteUser(repo: Repository, idParam: Str, fault: bool) returns (r: UserResponse)
    requires repo.Valid()
    modifies repo
    ensures repo.Valid()
    ensures r == Failure(StatusBadRequest, InvalidUserId) <==> Atoi(idParam).None?
    ensures r == Failure(StatusInternalServerError, DeleteFailed) <==> Atoi(idParam).Some? && fault
    ensures r.Reply? <==> Atoi(idParam).Some? && !fault
    ensures r.Reply? ==> r == Reply(StatusNoContent, NoBody) && repo.users == old(repo.users) - {Atoi(idParam).value}
    ensures r.Failure? ==> repo.users == old(repo.users)
    ensures unchanged(repo`aiModels, repo`chats, repo`messages, repo`nextId)
  {
    var id := Atoi(idParam);
    if id.None? {
      return Failure(StatusBadRequest, InvalidUserId);
    }
    var deleted := repo.DeleteUser(id.value, fault);
    if deleted.Err? {
      return Failure(StatusInternalServerError, DeleteFailed);
    }
    return Reply(StatusNoContent, NoBody);
  }
}
