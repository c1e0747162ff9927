# gippity-serv in Dafny

gippity-serv is a small chat backend written in Go. It has the following parts:

- A Postgres repository of users, AI models, chats and messages (`db/database.go`).
- Salted SHA-256 password hashing and hash-based login tokens (`utils/utils.go`). The hashing code is repeated in `handlers/auth.go`, `handlers/user.go` and `auth/main.go`. The token code differs: utils/utils.go takes the user id as a string (`%s`), while the other three take an `int` and format it with `%d`. The model keeps the two apart as `Utils.GenerateToken` and `AuthHandlers.GenerateToken`.
- A login endpoint that reads `username:password` from the base64 payload of the `Authorization` header, plus a token guard (`handlers/auth.go`).
- Sign-up and user read/update/delete endpoints (`handlers/user.go`).
- An authentication service with its own sign-up, login and guard (`auth/main.go`).
- Middleware composition for the HTTP server (`api/api.go`).
- The conversation endpoint (`handlers/chat.go`). It takes a user message, opens a new chat or continues an existing one, and stores the message. It then asks the OpenAI completion API for a streamed reply, relays each fragment to the client, and stores the assembled reply.

This project is a Dafny model of those parts. Each module mirrors one Go file:

| module | file | form |
|---|---|---|
| `Store` | db/database.go | a `Repository` class whose map fields are the tables; one method per repository method |
| `Utils` | utils/utils.go | functions over byte strings |
| `AuthHandlers` | handlers/auth.go | functions (the handler is a pure decision on its inputs) |
| `UserHandlers` | handlers/user.go | methods against a `Repository` |
| `AuthService` | auth/main.go | a method for sign-up (it writes the users table), functions for the rest |
| `Api` | api/api.go | a method with the source's backwards loop, proved against a `Chain` function |
| `ChatHandler` | handlers/chat.go | the turn as a specification function `Turn`, and the handler `Conversation` as a method over a `Repository`, proved equal to `Turn` |

Support modules:

- `Wrappers` holds `Option` and `Result`.
- `Bytes` holds byte strings and models these Go functions: `strings.Split` with a one-byte separator, `%d` formatting of integers, and `strconv.Atoi` on 64-bit integers. It also defines `Join`, the inverse of `Split`, which the proofs use.
- `Hex` holds lower-case hexadecimal, as `encoding/hex` implements it (section 8 of RFC 4648).
- `Http` holds the status codes and a response type.

## Model

| member | source | states |
|---|---|---|
| Store.InsertChat | db/database.go:144-158 | the inserted chat gets a fresh id, never `uuid.Nil`; it is returned with that id; only the chats table gains the row, and only the columns the INSERT names |
| Store.FindChat | db/database.go:160-176 | a chat is found iff its id is in the table; the chat read back has that id and an empty model version, because the SELECT has no such column |
| Store.ContextsOfAppend | handlers/chat.go:113-131 | storing one message extends a chat's history by that message's role and content exactly when the message belongs to the chat |
| Store.Repository.constructor | db/database.go:20-30 | a new repository starts with empty tables and satisfies the id invariant |
| Store.Repository.CreateUser | db/database.go:36-43 | on success the user is stored under a fresh id that is returned; on failure nothing changes; other tables are untouched |
| Store.Repository.GetUserByID | db/database.go:45-53 | succeeds iff the statement works and the id exists, and returns that row; a missing id is a no-rows error |
| Store.Repository.GetUserByUsername | db/database.go:55-63 | succeeds iff some stored user has the username, and returns a stored row with that name |
| Store.Repository.UpdateUser | db/database.go:65-72 | writes username, email and hash of the row with the user's id; a missing id changes nothing and still succeeds |
| Store.Repository.DeleteUser | db/database.go:74-81 | removes the id (a missing id is no error); nothing else changes |
| Store.Repository.CreateAIModel | db/database.go:83-90 | stores name, version, description and active flag under a fresh id that is returned |
| Store.Repository.GetAIModelByID | db/database.go:92-100 | found iff the id exists and the statement works; returns that row |
| Store.Repository.GetAllAIModels | db/database.go:102-124 | fails iff the query, a scan of an existing row, or the iteration fails; otherwise returns every model exactly once, and nothing else |
| Store.Repository.UpdateAIModel | db/database.go:126-133 | overwrites all four columns of an existing id; nothing else changes |
| Store.Repository.DeleteAIModel | db/database.go:135-142 | removes the id; nothing else changes |
| Store.Repository.CreateChat | db/database.go:144-158 | the chat is inserted as `InsertChat` says, and returned with its new id |
| Store.Repository.GetChatByID | db/database.go:160-176 | found iff the id exists; the chat read back is `FindChat`'s |
| Store.Repository.UpdateChat | db/database.go:178-192 | overwrites user, title, last-updated and archived flag but keeps `created_at`; a missing id changes nothing |
| Store.Repository.DeleteChat | db/database.go:194-201 | removes the id; nothing else changes |
| Store.Repository.GetChatsByUserID | db/database.go:203-233 | fails iff the query, a scan of a matching row, or the iteration fails; otherwise returns exactly the user's chats, each once |
| Store.Repository.CreateMessage | handlers/chat.go:126-131 | appends the message to the log on success; nothing else changes |
| Store.Repository.GetMessageContentsByChatID | handlers/chat.go:113-119 | on success returns the chat's (role, content) history, oldest first |
| Bytes.SplitLength | handlers/auth.go:61-64 | `strings.Split` yields one more field than the separator count |
| Bytes.SplitJoin | handlers/auth.go:57-64 | splitting separator-free fields joined by the separator gives the fields back |
| Bytes.JoinSplit | handlers/auth.go:57-64 | joining the fields of a split gives the string back |
| Bytes.AtoiFormatInt | handlers/user.go:96-110 | `strconv.Atoi` reads back every 64-bit integer that `%d` prints |
| Hex.HexDecodeSucceeds | utils/utils.go:37-42 | `hex.DecodeString` succeeds iff the text has even length and only hex digits; the result is half as long |
| Hex.HexDecodeEncode | utils/utils.go:14-30 | decoding `hex.EncodeToString(b)` gives `b` back |
| Hex.HexEncodeDecode | utils/utils.go:37-42 | every lower-case hex string is the encoding of what it decodes to |
| Hex.HexEncodeIsHex | utils/utils.go:14-30 | an encoding is a valid lower-case hex string of twice the length |
| Utils.HashString | utils/utils.go:14-30 | fails with the `.env` error, or with the missing-salt error, exactly in those cases; otherwise gives 64 hex digits that decode to SHA-256 of input followed by salt |
| Utils.HashStringMatches | utils/utils.go:14-30 | two passwords hash alike iff their salted digests are equal |
| Utils.GenerateToken | utils/utils.go:32-35 | succeeds iff hashing can; the token decodes to the digest of "id:unix-time" followed by the salt |
| Utils.TokenInputParses | utils/utils.go:32-35 | a colon-free user id and a 64-bit time are recovered from the hashed string |
| Utils.ValidateToken | utils/utils.go:37-42 | valid iff the token is hex; an error is reported iff it is not |
| Utils.GeneratedTokensValidate | utils/utils.go:32-42 | every generated token validates without error |
| AuthHandlers.GenerateToken | handlers/auth.go:38-41 | the integer-id token is `Utils.GenerateToken` of the id in decimal |
| AuthHandlers.Credentials | handlers/auth.go:52-64 | the header is refused iff it does not hold exactly one space; on success there are exactly `n` colon-free fields, and joined by ':' they are the decoded payload |
| AuthHandlers.CredentialsAccept | handlers/auth.go:52-64 | for every space-free scheme and every space-free payload that decodes to colon-free fields joined by ':', the header is accepted and the fields come back |
| AuthHandlers.ColonInPasswordRejected | handlers/auth.go:61-64 | a password containing ':' is refused as a bad format |
| AuthHandlers.Login | handlers/auth.go:50-88 | replies only with 200; every failure is a 401, or a 500 `LoginFailed` ("An error occurred while logging in") |
| AuthHandlers.LoginHeaderRule | handlers/auth.go:53-55 | the invalid-header 401 is sent iff the header does not hold exactly one space |
| AuthHandlers.LoginIssuesToken | handlers/auth.go:66-87 | under one reading of the environment, a token is issued iff the credentials parse, the user exists and the stored hash is the password's hash; it is then that user's token |
| AuthHandlers.UnknownUserLikeWrongPassword | handlers/auth.go:67-79 | an unknown user and a wrong password get the same 401 |
| AuthHandlers.LoginTokenStepNeverFails | handlers/auth.go:81-86 | under one reading of the environment, the token-step 500 `LoginFailed` is only sent when hashing itself cannot work |
| AuthHandlers.AuthMiddleware | handlers/auth.go:91-105 | 401 "[am-300]" iff the header is empty; 401 "[am-301]" iff it is non-empty and not hex; otherwise the next handler runs |
| AuthHandlers.IssuedTokensPassGuard | handlers/auth.go:50-105 | every token that login issues passes the guard |
| UserHandlers.CreateUser | handlers/user.go:44-94 | each header error gives its 400; empty fields give a 400; a taken username gives a 409 exactly when the lookup finds it; otherwise the hash, insert and token steps decide between 500s and 201 with the new id's token; only a 201 stores the user |
| UserHandlers.GetUser | handlers/user.go:96-110 | 400 iff the id does not parse; 404 iff the lookup fails; otherwise 200 with the row's id, username and email, and never the password hash |
| UserHandlers.UpdateUser | handlers/user.go:112-131 | 400 for a bad id or body; 500 iff the update fails; otherwise the row with the path's id gets the body's username and email and an empty password hash |
| UserHandlers.EmptyHashLocksOut | handlers/auth.go:72-79 | whatever lookup login uses, if it finds a user whose stored hash is empty for the parsed username, login fails |
| UserHandlers.UpdateUserKeepingPassword | handlers/user.go:112-131 | the update as intended: every stored password hash is kept; with a working lookup of the current row it answers exactly as `UpdateUser` does (a missing id still gets 200 and changes nothing), and a failing lookup is a 500 |
| UserHandlers.DeleteUser | handlers/user.go:133-146 | 400 iff the id does not parse; 500 iff the delete fails; otherwise 204 and the id is removed |
| AuthService.ValidateToken | auth/main.go:56-60 | valid iff the token is hex; never reports an error |
| AuthService.ValidateTokensAgree | auth/main.go:56-60 | this validity matches the utils one; only the utils one reports an error |
| AuthService.CreateUser | auth/main.go:63-96 | "[cu-100]" iff the count query fails; "[cu-101]" iff a stored user has the username or the email; otherwise the hash, insert and token steps give "[cu-102]", "[cu-103]" or the new id's token; only success stores the user |
| AuthService.LoginOutcomes | auth/main.go:99-117 | "[ln-200]" iff the lookup fails; "[ln-201]" iff hashing fails; "[ln-202]" iff the hash differs; otherwise, under one reading of the environment, the user's token, and the token error never occurs |
| AuthService.AuthMiddlewaresAgree | auth/main.go:120-134 | the service's guard answers every request exactly as the handlers' guard does |
| Api.HandleMiddlewareChain | api/api.go:22-29 | the backwards loop builds `m0(m1(...(next)))`, the first middleware outermost |
| Api.ChainAppend | api/api.go:22-29 | chaining `a + b` is chaining `a` around the chain of `b` |
| Api.ChainAppliesEachOnce | api/api.go:22-29 | a chain applies each middleware exactly once, in list order from the outside in |
| Api.RequestLoggerForwardsOnce | api/api.go:31-36 | the logger logs method and path, then calls the next handler exactly once with the same writer and request |
| Api.ServerChain | api/api.go:49-55 | the server's chain is the logger around the router |
| ChatHandler.RequestForKeepsWindow | handlers/chat.go:37-59 | the request keeps every window entry in order, streams, and names the version or else `gpt-3.5-turbo` |
| ChatHandler.ChatCompletionStream | handlers/chat.go:37-59 | the array loop builds exactly the request for the window; the stream is the gateway's answer to it |
| ChatHandler.Title | handlers/chat.go:92 | the title is the first `min(50, len)` bytes of the content |
| ChatHandler.Prepare | handlers/chat.go:61-131 | before the stream no stream is opened; a ready turn has a body, the posted content and the token's user, and has just stored its message |
| ChatHandler.EarlyRejections | handlers/chat.go:63-71 | an unbindable body gives 400 "[c-00]", and empty content gives 400 "[c-0]", before any call |
| ChatHandler.NewChatPrepared | handlers/chat.go:88-107 | a new chat is created for the token's user with the title and a fresh id; the message is stored under that id; the window is the message alone |
| ChatHandler.ExistingChatPrepared | handlers/chat.go:108-124 | an existing chat's window is its history plus the new content; the version is replaced by the stored one, which is always empty, so the model is always the default |
| ChatHandler.RelayFromFinished | handlers/chat.go:144-163 | the relay loop finishes iff the rest of the stream is clean; the reply is then the prefix plus every remaining fragment, each written once |
| ChatHandler.RelayReceivesAll | handlers/chat.go:144-163 | a finished relay's reply is all fragments in order, each written to the client once |
| ChatHandler.UserMessageStoredBeforeStream | handlers/chat.go:126-137 | a stream is opened only right after the user message is stored; a failed store ("[c-5]") opens none |
| ChatHandler.UserMessageStoreFailureStops | handlers/chat.go:126-131 | when storing the user message fails, no stream is opened, and a turn that reached that store ends with 500 "[c-5]" |
| ChatHandler.CompleteOpensOneStream | handlers/chat.go:133-179 | from the stream on, exactly one stream is opened and messages are only added |
| ChatHandler.ReplyStoredOnlyAfterEOF | handlers/chat.go:133-179 | the turn streams iff the gateway opens a stream that ends cleanly; the reply is then stored (best effort) with the chat, user, version and role "assistant"; otherwise nothing more is stored |
| ChatHandler.HistoryGrowsByTurn | handlers/chat.go:108-179 | after a stored reply, the chat's history grows by the user message and the reply |
| ChatHandler.Conversation | handlers/chat.go:61-181 | the handler's outcome, its calls in order and the final tables are exactly those of `Turn` |
| ChatHandler.StreamReply | handlers/chat.go:133-179 | the handler from the open stream on does what `Complete` says |

## Left out

- `getEnvKey` (handlers/chat.go:22-35) and the OpenAI API key and client are left out. The completion API is the `gateway` parameter: a request goes in, and a failed open or a stream of chunks comes out. When the `.env` file fails to load, `getEnvKey` calls `log.Fatalf` (handlers/chat.go:23-25), which ends the whole process. This happens inside `ChatCompletionStream` (reached at :133), after the user message was already stored at :127. The model cannot express a process exit: the gateway can only fail with "[c-6]".
- `godotenv.Load`, `os.Getenv("HASH_SALT")` and SHA-256 are the `HashEnv` parameter. Base64 decoding is a parameter that may fail. None of them are implemented.
- AuthHandlers.LoginTokenStepNeverFails: holds only because one `HashEnv` is read per request. The source runs `godotenv.Load` and `os.Getenv` again on every hashing call (handlers/auth.go:20-28, reached at :72 and again through `GenerateToken` at :81). A `.env` file or salt that disappears between the password hash and the token hash would make the token step fail, and the model cannot express that. For the same reason, the token-failure branches "[cu-104]" of `UserHandlers.CreateUser` (handlers/user.go:87-92) and `AuthService.CreateUser` (auth/main.go:90-93) are unreachable in the model.
- AuthHandlers.LoginIssuesToken: its "if" direction holds only because one `HashEnv` is read per request. In the source, `GenerateToken` (handlers/auth.go:81, through :38-40) reads `.env` and `HASH_SALT` again at :20-28. If that second read fails, the handler answers 500 at :82-84 even though the hash matched.
- AuthService.LoginOutcomes: the claims that success follows from a matching hash, and that the token error never occurs, hold only because one `HashEnv` is read per request. `return as.GenerateToken(user.ID)` (auth/main.go:116) reads the environment again (:32-40) and can return that error unwrapped. The model keeps a `TokenError` constructor for this path, but the model never produces it.
- UserHandlers.CreateUser: the "[cu-104]" token-failure branch (handlers/user.go:87-92) is unreachable in the model, because one `HashEnv` serves both the password hash at :71 and the token at :87.
- AuthService.CreateUser: the "[cu-104]" token-failure branch (auth/main.go:90-93) is unreachable in the model, because one `HashEnv` serves both the password hash at :76 and the token at :90.
- `time.Now()` is a single `now` per request. The new chat's `created_at` and `last_updated` are therefore equal, and the token time is whole Unix seconds.
- `NewDatabaseConnection` (db/database.go:20-30) and the connection pool are left out. `Store.Repository.constructor` starts from empty tables, and each statement's failure is a `fault` argument chosen by the caller.
- Chat ids are `uuid.UUID` in the source and integers here. `uuid.Nil` is 0 and fresh ids come from a counter.
- The `chats` table has no model-version column. `GetChatByID` therefore reads an empty version. The model follows the code here: an existing chat's request always names `gpt-3.5-turbo`, whatever version the client sent.
- `auth.ValidateToken(token, false)` (handlers/chat.go:75) matches no function of the repository's own auth package. That package's only `ValidateToken` is the one-argument method at auth/main.go:56, and it returns no claims. The conversation's token check is therefore a parameter. It maps the `Authorization` header to the user id in its claims, and `uuid.Parse` to an id.
- Response headers (SSE content type, CORS), `Flush`, Echo's binding and JSON encoding are left out. A body that does not bind is `None`.
- After the stream has started, the source still returns "[c-7]" and "[c-8]" errors. They are modelled as `Failed(500, …)` outcomes, although the status line has already been sent.
- The two runtime panics become `Panicked` outcomes: a nil `AIModelVersion` on a new chat (handlers/chat.go:96) and a chunk without choices (handlers/chat.go:155). Echo's panic recovery is not modelled.
- The order of rows from `GetAllAIModels` and `GetChatsByUserID` is left open. The model picks any order, and the contracts only say which rows come back, each exactly once.
- `CreateMessage` and `GetMessageContentsByChatID` are called by the chat handler but are not defined in db/database.go. They are modelled as an append to a message log and a projection of it.
- `Run` (api/api.go:38-59): the route table and `ListenAndServe` are left out. `Api.ServerChain` covers only its middleware chain.
- Concurrency, request contexts and timeouts are not modelled. Each request runs alone against the tables.
- The columns `created_at`, `last_login`, `is_active` and `last_chat_id` of a user are not modelled, because no core statement reads or writes them. For the same reason, the JSON bodies of `UserHandlers.GetUser` and `UserHandlers.UpdateUser` show only id, username and email. The source's `c.JSON(…, user)` (handlers/user.go:108,129) also writes `created_at`, `last_login` and `is_active`: zero values in `GetUser`, and whatever the client sent in `UpdateUser`. It also writes `last_chat_id` when that is not nil.
- `AuthService.Login`: its contract lives in `AuthService.LoginOutcomes`, because the function itself carries none.

## Findings

| source | as written | input that shows it | evidently intended | confidence | as-written member | corrected member |
|---|---|---|---|---|---|---|
| handlers/user.go:119-125 with models/models.go:9 | the update binds a fresh user from JSON, and the password hash is tagged `json:"-"`, so it is always empty; the UPDATE statement writes that empty hash | any successful PUT of an existing user, such as id 1 with body `{"username":"a","email":"b"}` | update the username and email and keep the stored hash; as written, that user can never log in again (`UserHandlers.EmptyHashLocksOut`) | high, not executed | UserHandlers.UpdateUser | UserHandlers.UpdateUserKeepingPassword |
