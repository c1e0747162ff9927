/**
 * One conversation turn (handlers/chat.go).
 *
 * A turn validates the posted message, resolves the bearer token to a user
 * id, opens a new chat or loads an existing one, stores the user's message,
 * asks the completion gateway for a stream, relays the streamed fragments
 * to the client, and stores the assembled assistant reply.
 *
 * `Turn` states the whole turn as a function of the tables before it, the
 * request body and an environment that fixes everything outside the
 * program: the token check, the uuid parser, the clock, which store calls
 * fail, the stream the gateway returns and which writes to the client fail.
 * `Conversation` is the handler itself, step by step against a
 * `Repository`, and is proved to do exactly what `Turn` says.
 */
module ChatHandler {
  import opened Wrappers
  import opened Bytes
  import opened Store

  /** `openai.GPT3Dot5Turbo`, the model used when no version is given. */
  const DefaultModel: Str := Ascii("gpt-3.5-turbo")
  const RoleUser: Str := Ascii("user")
  const RoleAssistant: Str := Ascii("assistant")
  /** A new chat's title is at most this many bytes of the first message. */
  const TitleLimit: nat := 50

  // ---------------------------------------------------------------------
  // The completion request (ChatCompletionStream)

  datatype ChatMessage = ChatMessage(role: Str, content: Str)
  datatype CompletionRequest = CompletionRequest(model: Str, messages: seq<ChatMessage>, stream: bool)

  /** One streamed chunk: the delta content of each of its choices. */
  datatype Chunk = Chunk(choices: seq<Str>)
  /** How `Recv` ends: `io.EOF`, or any other error. */
  datatype StreamEnd = EOF | RecvFailed
  /** What successive `Recv` calls return: the chunks, then the end. */
  datatype Stream = Stream(chunks: seq<Chunk>, end: StreamEnd)

  /** The request for a context window: one message per entry, streaming, the version or the default model. */
  function RequestFor(window: seq<MessageContent>, version: Str): CompletionRequest
  {
    CompletionRequest(if version == [] then DefaultModel else version,
                      seq(|window|, i requires 0 <= i < |window| => ChatMessage(window[i].role, window[i].content)),
                      true)
  }

  /** The context window a list of request messages carries. */
  function WindowOf(messages: seq<ChatMessage>): seq<MessageContent>
  {
    if messages == [] then [] else [MessageContent(messages[0].role, messages[0].content)] + WindowOf(messages[1..])
  }

  /**
   * The request keeps every entry of the window, in order, with its role
   * and content; it streams; and it names the given version, or the
   * default model when the version is empty.
   */
  lemma {:induction false} RequestForKeepsWindow(window: seq<MessageContent>, version: Str)
    ensures WindowOf(RequestFor(window, version).messages) == window
    ensures RequestFor(window, version).stream
    ensures RequestFor(window, version).model == if version == [] then DefaultModel else version
    decreases |window|
  {
    var ms := RequestFor(window, version).messages;
    if window != [] {
      assert ms[1..] == RequestFor(window[1..], version).messages;
      RequestForKeepsWindow(window[1..], version);
      assert window == [window[0]] + window[1..];
    }
  }

  /**
   * `ChatCompletionStream`: copy the window into an array of request
   * messages, build the request, and open the stream through the gateway.
   * The API key and the HTTP client are not modelled.
   */
  method ChatCompletionStream(window: seq<MessageContent>, version: Str, gateway: CompletionRequest -> Option<Stream>)
    returns (request: CompletionRequest, stream: Option<Stream>)
    ensures request == RequestFor(window, version)
    ensures stream == gateway(request)
  {
    var messages := new ChatMessage[|window|];
    for i := 0 to |window|
      invariant forall j :: 0 <= j < i ==> messages[j] == ChatMessage(window[j].role, window[j].content)
    {
      messages[i] := ChatMessage(window[i].role, window[i].content);
    }
    request := CompletionRequest(DefaultModel, messages[..], true);
    if version != [] {
      request := request.(model := version);
    }
    stream := gateway(request);
  }

  // ---------------------------------------------------------------------
  // The title of a new chat

  /** `content[:min(50, len(content))]`, in bytes. */
  function Title(content: Str): (title: Str)
    ensures |title| <= TitleLimit && title <= content
    ensures |title| == if |content| < TitleLimit then |content| else TitleLimit
  {
    content[..if |content| < TitleLimit then |content| else TitleLimit]
  }

  // ---------------------------------------------------------------------
  // The turn

  /** The calls a turn makes to the outside, in order. */
  datatype Call =
    | ValidateToken(token: Str)
    | CreateChat(chat: Chat)
    | GetChatByID(chatId: Id)
    | GetMessageContents(chatId: Id)
    | CreateMessage(message: Message)
    | OpenStream(request: CompletionRequest)
    | Write(content: Str)

  /** The tags of the error responses: "[c-00]", "[c-0]", ..., "[c-8]". */
  datatype Tag = C00 | C0 | C1 | C2 | C3 | C4 | C5 | C6 | C7 | C8

  /** Runtime panics: `*message.AIModelVersion` on a nil pointer, `Choices[0]` on no choices. */
  datatype Panic = NilDereference | IndexOutOfRange

  /**
   * How the handler ends: an error response, the streamed reply (the
   * handler returns nil whether or not the reply was stored; a failed
   * store is only logged as "[c-9]"), or a panic.
   */
  datatype Outcome = Failed(status: int, tag: Tag) | Streamed(assistantSaved: bool) | Panicked(cause: Panic)

  /** Which store calls fail. */
  datatype Faults = Faults(createChat: bool, getChat: bool, getContexts: bool, saveUser: bool, saveAssistant: bool)

  /**
   * Everything a turn depends on besides the tables and the body: the
   * `Authorization` header; the token check (`auth.ValidateToken`), as the
   * user id in the token's claims or an error; `uuid.Parse`; the time;
   * the store faults; the completion gateway; and, by chunk index, whether
   * writing that chunk's fragment to the client fails.
   */
  datatype TurnEnv = TurnEnv(authorization: Str, claims: Str -> Option<Str>, parseUuid: Str -> Option<Id>,
                             now: Time, faults: Faults, gateway: CompletionRequest -> Option<Stream>,
                             writeFails: nat -> bool)

  /** What a turn returns and leaves behind. */
  datatype TurnResult = TurnResult(outcome: Outcome, calls: seq<Call>, tables: Tables)

  /**
   * The turn up to the stream: stopped with an outcome, or ready to
   * stream with the stored user message and the context window.
   */
  datatype Stage =
    | Stop(outcome: Outcome, calls: seq<Call>, tables: Tables)
    | Ready(message: Message, window: seq<MessageContent>, calls: seq<Call>, tables: Tables)

  /** No call in the list opens a stream. */
  predicate NoStream(calls: seq<Call>)
  {
    forall k :: 0 <= k < |calls| ==> !calls[k].OpenStream?
  }

  /** The user id the token stands for. */
  function TokenUser(env: TurnEnv): Option<Id>
  {
    match env.claims(env.authorization)
    case None => None
    case Some(claimed) => env.parseUuid(claimed)
  }

  /** Store the user message; then the turn is ready to stream. */
  function SaveUserMessage(t: Tables, m: Message, window: seq<MessageContent>, env: TurnEnv, calls: seq<Call>): (s: Stage)
    requires m.aiModelVersion.Some?
    requires NoStream(calls)
    ensures NoStream(s.calls)
    ensures s.Ready? ==> s.message.aiModelVersion.Some? && s.message == m
    ensures s.Ready? ==> |s.calls| > 0 && s.calls[|s.calls| - 1] == CreateMessage(m) && m in s.tables.messages
  {
    var calls := calls + [CreateMessage(m)];
    if env.faults.saveUser then Stop(Failed(500, C5), calls, t)
    else Ready(m, window, calls, t.(messages := t.messages + [m]))
  }

  /** No chat id: create a chat titled after the message; the window is the message alone. */
  function NewChat(t: Tables, m: Message, env: TurnEnv, calls: seq<Call>): (s: Stage)
    requires Consistent(t)
    requires NoStream(calls)
    ensures NoStream(s.calls)
    ensures s.Ready? ==> s.message.aiModelVersion.Some? && s.message.content == m.content && s.message.userId == m.userId
    ensures s.Ready? ==> |s.calls| > 0 && s.calls[|s.calls| - 1] == CreateMessage(s.message) && s.message in s.tables.messages
  {
    match m.aiModelVersion
    case None => Stop(Panicked(NilDereference), calls, t)
    case Some(version) =>
      var chat := Chat(NilId, m.userId, Title(m.content), env.now, env.now, false, version);
      var calls := calls + [CreateChat(chat)];
      if env.faults.createChat then Stop(Failed(500, C3), calls, t)
      else
        var (t', created) := InsertChat(t, chat);
        SaveUserMessage(t', m.(chatId := created.id), [MessageContent(RoleUser, m.content)], env, calls)
  }

  /** A chat id: take the chat's model version and its history; the window is the history and the message. */
  function ExistingChat(t: Tables, m: Message, env: TurnEnv, calls: seq<Call>): (s: Stage)
    requires NoStream(calls)
    ensures NoStream(s.calls)
    ensures s.Ready? ==> s.message.aiModelVersion.Some? && s.message.content == m.content && s.message.userId == m.userId
    ensures s.Ready? ==> |s.calls| > 0 && s.calls[|s.calls| - 1] == CreateMessage(s.message) && s.message in s.tables.messages
  {
    var calls := calls + [GetChatByID(m.chatId)];
    if env.faults.getChat || m.chatId !in t.chats then Stop(Failed(500, C3), calls, t)
    else
      var chat := FindChat(t, m.chatId).value;
      var m := m.(aiModelVersion := Some(chat.aiModelVersion));
      var calls := calls + [GetMessageContents(m.chatId)];
      if env.faults.getContexts then Stop(Failed(500, C4), calls, t)
      else SaveUserMessage(t, m, ContextsOf(t.messages, m.chatId) + [MessageContent(RoleUser, m.content)], env, calls)
  }

  /** The turn up to the point where the stream is opened. */
  function Prepare(t: Tables, body: Option<Message>, env: TurnEnv): (s: Stage)
    requires Consistent(t)
    ensures NoStream(s.calls)
    ensures s.Ready? ==> s.message.aiModelVersion.Some?
    ensures s.Ready? ==> body.Some? && s.message.content == body.value.content && Some(s.message.userId) == TokenUser(env)
    ensures s.Ready? ==> |s.calls| > 0 && s.calls[|s.calls| - 1] == CreateMessage(s.message) && s.message in s.tables.messages
  {
    match body
    case None => Stop(Failed(400, C00), [], t)
    case Some(m) =>
      if m.content == [] then Stop(Failed(400, C0), [], t)
      else
        var calls := [ValidateToken(env.authorization)];
        match env.claims(env.authorization)
        case None => Stop(Failed(401, C1), calls, t)
        case Some(claimed) =>
          match env.parseUuid(claimed)
          case None => Stop(Failed(500, C2), calls, t)
          case Some(userId) =>
            var m := m.(userId := userId);
            if m.chatId == NilId then NewChat(t, m, env, calls) else ExistingChat(t, m, env, calls)
  }

  /** Why the relay loop stopped. */
  datatype Halt = Finished | RecvError | NoChoices | WriteError

  /** The relay loop's result: the accumulated reply, the calls it made, why it stopped. */
  datatype Relayed = Relayed(text: Str, calls: seq<Call>, halt: Halt)

  /**
   * The relay loop from chunk `i` on, with the reply `text` and the write
   * calls `calls` so far: append each chunk's first fragment to the reply,
   * write it to the client, and stop at the end of the stream or at the
   * first chunk without choices or write that fails.
   */
  function RelayFrom(s: Stream, writeFails: nat -> bool, i: nat, text: Str, calls: seq<Call>): (r: Relayed)
    ensures |calls| <= |r.calls| && r.calls[..|calls|] == calls
    ensures forall k :: |calls| <= k < |r.calls| ==> r.calls[k].Write?
    decreases |s.chunks| - i
  {
    if i >= |s.chunks| then Relayed(text, calls, if s.end == EOF then Finished else RecvError)
    else if s.chunks[i].choices == [] then Relayed(text, calls, NoChoices)
    else
      var content := s.chunks[i].choices[0];
      if writeFails(i) then Relayed(text + content, calls + [Write(content)], WriteError)
      else RelayFrom(s, writeFails, i + 1, text + content, calls + [Write(content)])
  }

  function Relay(s: Stream, writeFails: nat -> bool): Relayed
  {
    RelayFrom(s, writeFails, 0, [], [])
  }

  /** The first fragment of a chunk, or nothing. */
  function Delta(c: Chunk): Str
  {
    if c.choices == [] then [] else c.choices[0]
  }

  /** All first fragments of the chunks, in order. */
  function Received(chunks: seq<Chunk>): Str
  {
    if chunks == [] then [] else Delta(chunks[0]) + Received(chunks[1..])
  }

  /** The writes of all first fragments, in order. */
  function Writes(chunks: seq<Chunk>): seq<Call>
  {
    if chunks == [] then [] else [Write(Delta(chunks[0]))] + Writes(chunks[1..])
  }

  /** Every chunk has a choice, every write succeeds, and the stream ends with EOF. */
  predicate Clean(s: Stream, writeFails: nat -> bool)
  {
    s.end == EOF && forall k :: 0 <= k < |s.chunks| ==> s.chunks[k].choices != [] && !writeFails(k)
  }

  /**
   * From chunk `i` on, the loop finishes exactly on a clean rest of the
   * stream, and then the reply is the prefix followed by every remaining
   * first fragment, each written once, in order.
   */
  lemma {:induction false} RelayFromFinished(s: Stream, writeFails: nat -> bool, i: nat, text: Str, calls: seq<Call>)
    requires i <= |s.chunks|
    ensures var r := RelayFrom(s, writeFails, i, text, calls);
            r.halt == Finished <==> s.end == EOF && forall k :: i <= k < |s.chunks| ==> s.chunks[k].choices != [] && !writeFails(k)
    ensures var r := RelayFrom(s, writeFails, i, text, calls);
            r.halt == Finished ==> r.text == text + Received(s.chunks[i..]) && r.calls == calls + Writes(s.chunks[i..])
    decreases |s.chunks| - i
  {
    if i < |s.chunks| && s.chunks[i].choices != [] && !writeFails(i) {
      var content := s.chunks[i].choices[0];
      RelayFromFinished(s, writeFails, i + 1, text + content, calls + [Write(content)]);
      assert s.chunks[i..][1..] == s.chunks[i + 1..];
    } else if i == |s.chunks| {
      assert s.chunks[i..] == [];
    }
  }

  /** The reply of a finished relay is the in-order concatenation of all received fragments. */
  lemma RelayReceivesAll(s: Stream, writeFails: nat -> bool)
    ensures Relay(s, writeFails).halt == Finished <==> Clean(s, writeFails)
    ensures Relay(s, writeFails).halt == Finished ==>
              Relay(s, writeFails).text == Received(s.chunks) && Relay(s, writeFails).calls == Writes(s.chunks)
  {
    RelayFromFinished(s, writeFails, 0, [], []);
    assert s.chunks[0..] == s.chunks;
  }

  /** The reply stored after a finished stream: same chat and user, role "assistant", the user message's version. */
  function AssistantMessage(m: Message, text: Str): Message
  {
    Message(NilId, m.chatId, m.userId, RoleAssistant, text, ZeroTime, false, m.aiModelVersion)
  }

  /** From the open stream on: relay, then on EOF store the reply (best effort). */
  function Complete(m: Message, window: seq<MessageContent>, calls: seq<Call>, t: Tables, env: TurnEnv): TurnResult
    requires m.aiModelVersion.Some?
  {
    var request := RequestFor(window, m.aiModelVersion.value);
    var calls := calls + [OpenStream(request)];
    match env.gateway(request)
    case None => TurnResult(Failed(500, C6), calls, t)
    case Some(s) =>
      var relayed := Relay(s, env.writeFails);
      var calls := calls + relayed.calls;
      match relayed.halt
      case RecvError => TurnResult(Failed(500, C7), calls, t)
      case WriteError => TurnResult(Failed(500, C8), calls, t)
      case NoChoices => TurnResult(Panicked(IndexOutOfRange), calls, t)
      case Finished =>
        var reply := AssistantMessage(m, relayed.text);
        var calls := calls + [CreateMessage(reply)];
        if env.faults.saveAssistant then TurnResult(Streamed(false), calls, t)
        else TurnResult(Streamed(true), calls, t.(messages := t.messages + [reply]))
  }

  /** The whole turn. */
  function Turn(t: Tables, body: Option<Message>, env: TurnEnv): TurnResult
    requires Consistent(t)
  {
    match Prepare(t, body, env)
    case Stop(outcome, calls, t') => TurnResult(outcome, calls, t')
    case Ready(m, window, calls, t') => Complete(m, window, calls, t', env)
  }

  // ---------------------------------------------------------------------
  // What a turn does

  /** A turn whose body does not bind, or whose content is empty, is refused with 400 before any call. */
  lemma EarlyRejections(t: Tables, body: Option<Message>, env: TurnEnv)
    requires Consistent(t)
    requires body.None? || body.value.content == []
    ensures Turn(t, body, env) == TurnResult(Failed(400, if body.None? then C00 else C0), [], t)
  {
  }

  /**
   * A new chat (no chat id): the chat is created for the token's user,
   * titled with at most the first 50 bytes of the content, under a fresh
   * id that the stored message then carries; the window is the message
   * alone, with role "user".
   */
  lemma NewChatPrepared(t: Tables, m: Message, env: TurnEnv)
    requires Consistent(t)
    requires m.content != [] && m.chatId == NilId && m.aiModelVersion.Some?
    requires TokenUser(env).Some? && !env.faults.createChat && !env.faults.saveUser
    ensures var s := Prepare(t, Some(m), env);
            var user := TokenUser(env).value;
            var title := Title(m.content);
            && s.Ready?
            && s.message == m.(userId := user, chatId := t.nextId)
            && s.window == [MessageContent(RoleUser, m.content)]
            && t.nextId !in t.chats && t.nextId != NilId
            && s.tables.chats == t.chats[t.nextId := ChatRow(user, title, env.now, env.now, false)]
            && s.tables.messages == t.messages + [s.message]
            && s.calls == [ValidateToken(env.authorization),
                           CreateChat(Chat(NilId, user, title, env.now, env.now, false, m.aiModelVersion.value)),
                           CreateMessage(s.message)]
  {
  }

  /**
   * An existing chat: the version the client sent is replaced by the
   * chat's stored one, which the chats table cannot hold, so the request
   * always names the default model; the window is the chat's history
   * followed by the new content with role "user".
   */
  lemma ExistingChatPrepared(t: Tables, m: Message, env: TurnEnv)
    requires Consistent(t)
    requires m.content != [] && m.chatId != NilId && m.chatId in t.chats
    requires TokenUser(env).Some? && !env.faults.getChat && !env.faults.getContexts && !env.faults.saveUser
    ensures var s := Prepare(t, Some(m), env);
            && s.Ready?
            && s.message == m.(userId := TokenUser(env).value, aiModelVersion := Some([]))
            && s.window == ContextsOf(t.messages, m.chatId) + [MessageContent(RoleUser, m.content)]
            && s.tables == t.(messages := t.messages + [s.message])
            && RequestFor(s.window, s.message.aiModelVersion.value).model == DefaultModel
  {
    RequestForKeepsWindow(ContextsOf(t.messages, m.chatId) + [MessageContent(RoleUser, m.content)], []);
  }

  /**
   * The stream is opened only after the user message, with the token's
   * user id and the posted content, was stored: the call just before the
   * one that opens the stream stores it.  When that store fails no stream
   * is opened.
   */
  lemma UserMessageStoredBeforeStream(t: Tables, body: Option<Message>, env: TurnEnv)
    requires Consistent(t)
    ensures var r := Turn(t, body, env);
            forall k :: 0 <= k < |r.calls| && r.calls[k].OpenStream? ==>
              && body.Some? && 0 < k && r.calls[k - 1].CreateMessage?
              && r.calls[k - 1].message.content == body.value.content
              && Some(r.calls[k - 1].message.userId) == TokenUser(env)
              && r.calls[k - 1].message in r.tables.messages
    ensures var r := Turn(t, body, env);
            r.outcome == Failed(500, C5) ==> NoStream(r.calls)
  {
    var p := Prepare(t, body, env);
    if p.Ready? {
      CompleteOpensOneStream(p.message, p.window, p.calls, p.tables, env);
      var r := Turn(t, body, env);
      assert r == Complete(p.message, p.window, p.calls, p.tables, env);
      forall k | 0 <= k < |r.calls| && r.calls[k].OpenStream?
        ensures 0 < k && r.calls[k - 1] == CreateMessage(p.message)
      {
        assert k == |p.calls|;
        assert r.calls[k - 1] == r.calls[..|p.calls|][k - 1];
      }
    }
  }

  /**
   * When storing the user message fails, no stream is opened, and a turn
   * that got as far as that store ends with 500 "[c-5]".
   */
  lemma UserMessageStoreFailureStops(t: Tables, body: Option<Message>, env: TurnEnv)
    requires Consistent(t)
    requires env.faults.saveUser
    ensures var r := Turn(t, body, env);
            && NoStream(r.calls)
            && ((exists k :: 0 <= k < |r.calls| && r.calls[k].CreateMessage?) ==> r.outcome == Failed(500, C5))
  {
  }

  /**
   * From the open stream on, the only call that opens a stream is the
   * first one, and messages are only ever added.
   */
  lemma CompleteOpensOneStream(m: Message, window: seq<MessageContent>, calls: seq<Call>, t: Tables, env: TurnEnv)
    requires m.aiModelVersion.Some?
    ensures var r := Complete(m, window, calls, t, env);
            && |calls| < |r.calls| && r.calls[..|calls|] == calls && r.calls[|calls|].OpenStream?
            && (forall k :: |calls| < k < |r.calls| ==> !r.calls[k].OpenStream?)
            && t.messages <= r.tables.messages
  {
    var request := RequestFor(window, m.aiModelVersion.value);
    var withOpen := calls + [OpenStream(request)];
    if env.gateway(request).Some? {
      var relayed := Relay(env.gateway(request).value, env.writeFails);
      var r := Complete(m, window, calls, t, env);
      assert relayed.calls[..0] == [];
      assert r.calls[..|withOpen| + |relayed.calls|] == withOpen + relayed.calls;
      assert forall k :: |withOpen| <= k < |withOpen| + |relayed.calls| ==> r.calls[k] == relayed.calls[k - |withOpen|];
    }
  }

  /**
   * Once the user message is stored, the turn streams exactly when the
   * gateway opens a stream that ends cleanly.  The reply is then every
   * received fragment in order, each written to the client once, and it is
   * stored (with the user message's chat, user and version, and role
   * "assistant") unless that store fails, which does not change the
   * outcome.  On any other end nothing more is stored.
   */
  lemma ReplyStoredOnlyAfterEOF(t: Tables, body: Option<Message>, env: TurnEnv)
    requires Consistent(t)
    requires Prepare(t, body, env).Ready?
    ensures var p := Prepare(t, body, env);
            var r := Turn(t, body, env);
            var request := RequestFor(p.window, p.message.aiModelVersion.value);
            r.outcome.Streamed? <==> env.gateway(request).Some? && Clean(env.gateway(request).value, env.writeFails)
    ensures var p := Prepare(t, body, env);
            var r := Turn(t, body, env);
            var request := RequestFor(p.window, p.message.aiModelVersion.value);
            r.outcome.Streamed? ==>
              var s := env.gateway(request).value;
              var reply := AssistantMessage(p.message, Received(s.chunks));
              && r.calls == p.calls + [OpenStream(request)] + Writes(s.chunks) + [CreateMessage(reply)]
              && r.outcome.assistantSaved == !env.faults.saveAssistant
              && r.tables == if r.outcome.assistantSaved then p.tables.(messages := p.tables.messages + [reply])
                             else p.tables
    ensures var p := Prepare(t, body, env);
            var r := Turn(t, body, env);
            !r.outcome.Streamed? ==> r.tables == p.tables
  {
    var p := Prepare(t, body, env);
    var request := RequestFor(p.window, p.message.aiModelVersion.value);
    if env.gateway(request).Some? {
      RelayReceivesAll(env.gateway(request).value, env.writeFails);
    }
  }

  /**
   * After a turn in an existing chat whose reply was stored, the chat's
   * history has grown by the user message, under the role the client sent,
   * and the reply: when that role is "user", the next turn's history is
   * this turn's window followed by the reply.
   */
  lemma HistoryGrowsByTurn(t: Tables, m: Message, env: TurnEnv)
    requires Consistent(t)
    requires m.chatId != NilId
    requires Prepare(t, Some(m), env).Ready?
    requires Turn(t, Some(m), env).outcome == Streamed(true)
    ensures var p := Prepare(t, Some(m), env);
            var r := Turn(t, Some(m), env);
            var s := env.gateway(RequestFor(p.window, p.message.aiModelVersion.value)).value;
            && ContextsOf(r.tables.messages, m.chatId)
               == ContextsOf(t.messages, m.chatId) + [MessageContent(m.role, m.content),
                                                      MessageContent(RoleAssistant, Received(s.chunks))]
            && (m.role == RoleUser ==>
                  ContextsOf(r.tables.messages, m.chatId) == p.window + [MessageContent(RoleAssistant, Received(s.chunks))])
  {
    var p := Prepare(t, Some(m), env);
    ReplyStoredOnlyAfterEOF(t, Some(m), env);
    var s := env.gateway(RequestFor(p.window, p.message.aiModelVersion.value)).value;
    var reply := AssistantMessage(p.message, Received(s.chunks));
    ContextsOfAppend(t.messages, p.message, m.chatId);
    ContextsOfAppend(t.messages + [p.message], reply, m.chatId);
  }

  /**
   * `Conversation`: the handler, step by step.  The request body is the
   * bound message, or `None` when binding fails.
   */
  method Conversation(repo: Repository, body: Option<Message>, env: TurnEnv) returns (outcome: Outcome, calls: seq<Call>)
    requires repo.Valid()
    modifies repo
    ensures repo.Valid()
    ensures TurnResult(outcome, calls, repo.Snapshot()) == Turn(old(repo.Snapshot()), body, env)
  {
    ghost var before := repo.Snapshot();
    calls := [];
    if body.None? {
      return Failed(400, C00), calls;
    }
    var message := body.value;
    if message.content == [] {
      return Failed(400, C0), calls;
    }
    calls := calls + [ValidateToken(env.authorization)];
    var claims := env.claims(env.authorization);
    if claims.None? {
      return Failed(401, C1), calls;
    }
    var userId := env.parseUuid(claims.value);
    if userId.None? {
      return Failed(500, C2), calls;
    }
    message := message.(userId := userId.value);
    var window: seq<MessageContent> := [];
    if message.chatId == NilId {
      if message.aiModelVersion.None? {
        return Panicked(NilDereference), calls;
      }
      var newChat := Chat(NilId, message.userId, Title(message.content), env.now, env.now, false,
                          message.aiModelVersion.value);
      calls := calls + [CreateChat(newChat)];
      var created := repo.CreateChat(newChat, env.faults.createChat);
      if created.Err? {
        return Failed(500, C3), calls;
      }
      message := message.(chatId := created.value.id);
      window := window + [MessageContent(RoleUser, message.content)];
    } else {
      calls := calls + [GetChatByID(message.chatId)];
      var chat := repo.GetChatByID(message.chatId, env.faults.getChat);
      if chat.Err? {
        return Failed(500, C3), calls;
      }
      message := message.(aiModelVersion := Some(chat.value.aiModelVersion));
      calls := calls + [GetMessageContents(message.chatId)];
      var history := repo.GetMessageContentsByChatID(message.chatId, env.faults.getContexts);
      if history.Err? {
        return Failed(500, C4), calls;
      }
      window := history.value + [MessageContent(RoleUser, message.content)];
    }

    calls := calls + [CreateMessage(message)];
    var saved := repo.CreateMessage(message, env.faults.saveUser);
    if saved.Err? {
      return Failed(500, C5), calls;
    }
    assert Prepare(before, body, env) == Ready(message, window, calls, repo.Snapshot());
    outcome, calls := StreamReply(repo, message, window, calls, env);
  }

  /**
   * The rest of `Conversation` once the user message is stored: open the
   * stream, relay it, and store the reply.
   */
  method StreamReply(repo: Repository, message: Message, window: seq<MessageContent>, callsSoFar: seq<Call>,
                     env: TurnEnv) returns (outcome: Outcome, calls: seq<Call>)
    requires repo.Valid()
    requires message.aiModelVersion.Some?
    modifies repo
    ensures repo.Valid()
    ensures TurnResult(outcome, calls, repo.Snapshot()) == Complete(message, window, callsSoFar, old(repo.Snapshot()), env)
  {
    calls := callsSoFar;
    var request, stream := ChatCompletionStream(window, message.aiModelVersion.value, env.gateway);
    calls := calls + [OpenStream(request)];
    if stream.None? {
      return Failed(500, C6), calls;
    }
    var s := stream.value;

    var assistantResponse: Str := [];
    var written: seq<Call> := [];
    var i := 0;
    while true
      invariant 0 <= i <= |s.chunks|
      invariant RelayFrom(s, env.writeFails, i, assistantResponse, written) == Relay(s, env.writeFails)
      decreases |s.chunks| - i
    {
      if i == |s.chunks| {
        if s.end == EOF {
          break;
        }
        return Failed(500, C7), calls + written;
      }
      var response := s.chunks[i];
      if response.choices == [] {
        return Panicked(IndexOutOfRange), calls + written;
      }
      var content := response.choices[0];
      assistantResponse := assistantResponse + content;
      written := written + [Write(content)];
      if env.writeFails(i) {
        return Failed(500, C8), calls + written;
      }
      i := i + 1;
    }
    calls := calls + written;

    var assistantMessage := Message(NilId, message.chatId, message.userId, RoleAssistant, assistantResponse,
                                    ZeroTime, false, message.aiModelVersion);
    calls := calls + [CreateMessage(assistantMessage)];
    var storedReply := repo.CreateMessage(assistantMessage, env.faults.saveAssistant);
    return Streamed(storedReply.Ok?), calls;
  }
}
