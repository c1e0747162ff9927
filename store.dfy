/**
 * The Postgres repository (db/database.go) over an in-memory database.
 *
 * Each table is a map from id to the columns its SQL statements touch;
 * a `Repository` object holds the tables and its methods are the
 * repository's methods, each reading or writing exactly the columns its
 * statement names.  A failing statement (lost connection, constraint
 * violation, ...) is chosen by the caller through a `fault` argument.
 * `CreateMessage` and `GetMessageContentsByChatID`, which the chat handler
 * calls but database.go does not define, are modelled as an append to an
 * ordered message log and a projection of that log.
 */
module Store {
  import opened Wrappers
  import opened Bytes

  /** Identifiers: integer keys for users and AI models, UUIDs for chats. */
  type Id = int
  type Time = int

  /** `uuid.Nil`, the chat id of a message that starts a new chat. */
  const NilId: Id := 0
  /** The zero `time.Time`. */
  const ZeroTime: Time := 0

  datatype User = User(id: Id, username: Str, email: Str, passwordHash: Str)
  datatype AIModel = AIModel(id: Id, name: Str, version: Str, description: Str, isActive: bool)
  /** The chat struct the handlers use; `aiModelVersion` has no column in the chats table. */
  datatype Chat = Chat(id: Id, userId: Id, title: Str, createdAt: Time, lastUpdated: Time,
                       isArchived: bool, aiModelVersion: Str)
  datatype Message = Message(id: Id, chatId: Id, userId: Id, role: Str, content: Str,
                             createdAt: Time, isEdited: bool, aiModelVersion: Option<Str>)
  /** One entry of a model context window. */
  datatype MessageContent = MessageContent(role: Str, content: Str)

  /** The columns stored per row (the id is the key). */
  datatype UserRow = UserRow(username: Str, email: Str, passwordHash: Str)
  datatype AIModelRow = AIModelRow(name: Str, version: Str, description: Str, isActive: bool)
  datatype ChatRow = ChatRow(userId: Id, title: Str, createdAt: Time, lastUpdated: Time, isArchived: bool)

  datatype DbError = StatementFailed | NoRows | ScanFailed | IterationFailed

  /** Where a list query can go wrong: the query, the scan of row `row`, or `rows.Err()`. */
  datatype QueryFault = NoFault | QueryError | ScanErrorAt(row: nat) | IterError

  /** The whole database as a value. */
  datatype Tables = Tables(users: map<Id, UserRow>, aiModels: map<Id, AIModelRow>,
                           chats: map<Id, ChatRow>, messages: seq<Message>, nextId: Id)

  function UserOf(id: Id, row: UserRow): User
  {
    User(id, row.username, row.email, row.passwordHash)
  }

  function AIModelOf(id: Id, row: AIModelRow): AIModel
  {
    AIModel(id, row.name, row.version, row.description, row.isActive)
  }

  /** A chat as `GetChatByID` scans it: the version is never selected and stays "". */
  function ChatOf(id: Id, row: ChatRow): Chat
  {
    Chat(id, row.userId, row.title, row.createdAt, row.lastUpdated, row.isArchived, [])
  }

  /** The next fresh id lies above `uuid.Nil` and above every chat id. */
  predicate Consistent(t: Tables)
  {
    NilId < t.nextId && forall id :: id in t.chats ==> id < t.nextId
  }

  /** The INSERT of `CreateChat`: five columns, a fresh id, and the same chat returned with it. */
  function InsertChat(t: Tables, chat: Chat): (r: (Tables, Chat))
    requires Consistent(t)
    ensures r.1 == chat.(id := t.nextId) && r.1.id !in t.chats && r.1.id != NilId
    ensures r.0 == t.(chats := t.chats[r.1.id := ChatRow(chat.userId, chat.title, chat.createdAt,
                                                        chat.lastUpdated, chat.isArchived)],
                      nextId := t.nextId + 1)
  {
    var id := t.nextId;
    (t.(chats := t.chats[id := ChatRow(chat.userId, chat.title, chat.createdAt, chat.lastUpdated,
                                       chat.isArchived)],
        nextId := id + 1),
     chat.(id := id))
  }

  /** The SELECT of `GetChatByID`. */
  function FindChat(t: Tables, id: Id): (r: Option<Chat>)
    ensures r.Some? <==> id in t.chats
    ensures r.Some? ==> r.value.id == id && r.value.aiModelVersion == []
  {
    if id in t.chats then Some(ChatOf(id, t.chats[id])) else None
  }

  /** `GetMessageContentsByChatID`: role and content of the chat's messages, in insertion order. */
  function ContextsOf(log: seq<Message>, chatId: Id): seq<MessageContent>
  {
    if log == [] then []
    else (if log[0].chatId == chatId then [MessageContent(log[0].role, log[0].content)] else [])
         + ContextsOf(log[1..], chatId)
  }

  /** The history of a log written in two parts is the two histories, in order. */
  lemma {:induction false} ContextsOfConcat(a: seq<Message>, b: seq<Message>, chatId: Id)
    ensures ContextsOf(a + b, chatId) == ContextsOf(a, chatId) + ContextsOf(b, chatId)
  {
    if a == [] {
      assert a + b == b;
    } else {
      assert (a + b)[0] == a[0];
      assert (a + b)[1..] == a[1..] + b;
      ContextsOfConcat(a[1..], b, chatId);
    }
  }

  /** Storing a message adds exactly its (role, content) to the end of its own chat's history. */
  lemma ContextsOfAppend(log: seq<Message>, m: Message, chatId: Id)
    ensures ContextsOf(log + [m], chatId)
         == ContextsOf(log, chatId) + (if m.chatId == chatId then [MessageContent(m.role, m.content)] else [])
  {
    ContextsOfConcat(log, [m], chatId);
    assert [m][1..] == [];
  }

  lemma Inhabited(s: set<Id>)
    requires s != {}
    ensures exists x :: x in s
  {
    if forall x :: x !in s {
      assert false;
    }
  }

  class Repository {
    var users: map<Id, UserRow>
    var aiModels: map<Id, AIModelRow>
    var chats: map<Id, ChatRow>
    var messages: seq<Message>
    /** The next key the id defaults (serial or uuid) hand out. */
    var nextId: Id

    ghost predicate Valid()
      reads this
    {
      Consistent(Snapshot())
      && (forall id :: id in users ==> id < nextId)
      && (forall id :: id in aiModels ==> id < nextId)
    }

    function Snapshot(): Tables
      reads this
    {
      Tables(users, aiModels, chats, messages, nextId)
    }

    constructor ()
      ensures Valid()
      ensures users == map[] && aiModels == map[] && chats == map[] && messages == []
    {
      users, aiModels, chats, messages := map[], map[], map[], [];
      nextId := NilId + 1;
    }

    // ----- users

    /** INSERT username, email, password_hash; the new id is written back into the user. */
    method CreateUser(user: User, fault: bool) returns (r: Result<User, DbError>)
      requires Valid()
      modifies this
      ensures Valid()
      ensures fault ==> r == Err(StatementFailed) && unchanged(this)
      ensures !fault ==> r == Ok(user.(id := old(nextId))) && old(nextId) !in old(users)
      ensures !fault ==> users == old(users)[old(nextId) := UserRow(user.username, user.email, user.passwordHash)]
      ensures !fault ==> nextId == old(nextId) + 1
      ensures unchanged(this`aiModels, this`chats, this`messages)
    {
      if fault {
        return Err(StatementFailed);
      }
      var id := nextId;
      users := users[id := UserRow(user.username, user.email, user.passwordHash)];
      nextId := nextId + 1;
      r := Ok(user.(id := id));
    }

    /** SELECT ... WHERE id = $1: the row with that key, or an error. */
    method GetUserByID(id: Id, fault: bool) returns (r: Result<User, DbError>)
      ensures r.Ok? <==> !fault && id in users
      ensures r.Ok? ==> r.value == UserOf(id, users[id])
      ensures !fault && id !in users ==> r == Err(NoRows)
      ensures fault ==> r == Err(StatementFailed)
    {
      if fault {
        return Err(StatementFailed);
      }
      if id in users {
        r := Ok(UserOf(id, users[id]));
      } else {
        r := Err(NoRows);
      }
    }

    /**
     * SELECT ... WHERE username = $1 through QueryRow: some row with that
     * username (the query has no ORDER BY), or an error when there is none.
     */
    method GetUserByUsername(username: Str, fault: bool) returns (r: Result<User, DbError>)
      ensures r.Ok? <==> !fault && exists id :: id in users && users[id].username == username
      ensures r.Ok? ==> r.value.id in users && r.value == UserOf(r.value.id, users[r.value.id])
                        && r.value.username == username
    {
      if fault {
        return Err(StatementFailed);
      }
      if id :| id in users && users[id].username == username {
        r := Ok(UserOf(id, users[id]));
      } else {
        r := Err(NoRows);
      }
    }

    /** UPDATE username, email, password_hash WHERE id = $4; no row matching is not an error. */
    method UpdateUser(user: User, fault: bool) returns (r: Result<(), DbError>)
      requires Valid()
      modifies this
      ensures Valid()
      ensures r.Ok? <==> !fault
      ensures unchanged(this`aiModels, this`chats, this`messages, this`nextId)
      ensures users == if !fault && user.id in old(users)
                       then old(users)[user.id := UserRow(user.username, user.email, user.passwordHash)]
                       else old(users)
    {
      if fault {
        return Err(StatementFailed);
      }
      if user.id in users {
        users := users[user.id := UserRow(user.username, user.email, user.passwordHash)];
      }
      r := Ok(());
    }

    /** DELETE WHERE id = $1; deleting a missing id is not an error. */
    method DeleteUser(id: Id, fault: bool) returns (r: Result<(), DbError>)
      requires Valid()
      modifies this
      ensures Valid()
      ensures r.Ok? <==> !fault
      ensures users == if fault then old(users) else old(users) - {id}
      ensures unchanged(this`aiModels, this`chats, this`messages, this`nextId)
    {
      if fault {
        return Err(StatementFailed);
      }
      users := users - {id};
      r := Ok(());
    }

    // ----- AI models

    /** INSERT name, version, description, is_active; the new id is written back. */
    method CreateAIModel(model: AIModel, fault: bool) returns (r: Result<AIModel, DbError>)
      requires Valid()
      modifies this
      ensures Valid()
      ensures fault ==> r == Err(StatementFailed) && unchanged(this)
      ensures !fault ==> r == Ok(model.(id := old(nextId))) && old(nextId) !in old(aiModels)
      ensures !fault ==> aiModels == old(aiModels)[old(nextId) := AIModelRow(model.name, model.version,
                                                                             model.description, model.isActive)]
      ensures !fault ==> nextId == old(nextId) + 1
      ensures unchanged(this`users, this`chats, this`messages)
    {
      if fault {
        return Err(StatementFailed);
      }
      var id := nextId;
      aiModels := aiModels[id := AIModelRow(model.name, model.version, model.description, model.isActive)];
      nextId := nextId + 1;
      r := Ok(model.(id := id));
    }

    method GetAIModelByID(id: Id, fault: bool) returns (r: Result<AIModel, DbError>)
      ensures r.Ok? <==> !fault && id in aiModels
      ensures r.Ok? ==> r.value == AIModelOf(id, aiModels[id])
      ensures !fault && id !in aiModels ==> r == Err(NoRows)
    {
      if fault {
        return Err(StatementFailed);
      }
      if id in aiModels {
        r := Ok(AIModelOf(id, aiModels[id]));
      } else {
        r := Err(NoRows);
      }
    }

    /**
     * SELECT every row, scanning them one by one in whatever order the
     * database returns them.  Any failure discards the rows scanned so far.
     */
    method GetAllAIModels(fault: QueryFault) returns (r: Result<seq<AIModel>, DbError>)
      ensures r.Err? <==> fault == QueryError || fault == IterError
                          || (fault.ScanErrorAt? && fault.row < |aiModels.Keys|)
      ensures r.Ok? ==> forall m :: m in r.value <==> m.id in aiModels && m == AIModelOf(m.id, aiModels[m.id])
      ensures r.Ok? ==> forall i, j :: 0 <= i < j < |r.value| ==> r.value[i].id != r.value[j].id
    {
      if fault == QueryError {
        return Err(StatementFailed);
      }
      var pending := aiModels.Keys;
      var list: seq<AIModel> := [];
      while pending != {}
        invariant pending <= aiModels.Keys
        invariant |list| + |pending| == |aiModels.Keys|
        invariant forall i :: 0 <= i < |list| ==>
                    list[i].id in aiModels && list[i].id !in pending && list[i] == AIModelOf(list[i].id, aiModels[list[i].id])
        invariant forall id :: id in aiModels && id !in pending ==> AIModelOf(id, aiModels[id]) in list
        invariant forall i, j :: 0 <= i < j < |list| ==> list[i].id != list[j].id
        invariant !(fault.ScanErrorAt? && fault.row < |list|)
        decreases |pending|
      {
        Inhabited(pending);
        var id :| id in pending;
        if fault == ScanErrorAt(|list|) {
          return Err(ScanFailed);
        }
        list := list + [AIModelOf(id, aiModels[id])];
        pending := pending - {id};
      }
      if fault == IterError {
        return Err(IterationFailed);
      }
      r := Ok(list);
    }

    method UpdateAIModel(model: AIModel, fault: bool) returns (r: Result<(), DbError>)
      requires Valid()
      modifies this
      ensures Valid()
      ensures r.Ok? <==> !fault
      ensures unchanged(this`users, this`chats, this`messages, this`nextId)
      ensures aiModels == if !fault && model.id in old(aiModels)
                          then old(aiModels)[model.id := AIModelRow(model.name, model.version,
                                                                    model.description, model.isActive)]
                          else old(aiModels)
    {
      if fault {
        return Err(StatementFailed);
      }
      if model.id in aiModels {
        aiModels := aiModels[model.id := AIModelRow(model.name, model.version, model.description, model.isActive)];
      }
      r := Ok(());
    }

    method DeleteAIModel(id: Id, fault: bool) returns (r: Result<(), DbError>)
      requires Valid()
      modifies this
      ensures Valid()
      ensures r.Ok? <==> !fault
      ensures aiModels == if fault then old(aiModels) else old(aiModels) - {id}
      ensures unchanged(this`users, this`chats, this`messages, this`nextId)
    {
      if fault {
        return Err(StatementFailed);
      }
      aiModels := aiModels - {id};
      r := Ok(());
    }

    // ----- chats

    /** INSERT user_id, title, created_at, last_updated, is_archived; returns the chat with its new id. */
    method CreateChat(chat: Chat, fault: bool) returns (r: Result<Chat, DbError>)
      requires Valid()
      modifies this
      ensures Valid()
      ensures fault ==> r == Err(StatementFailed) && unchanged(this)
      ensures !fault ==> Ok(InsertChat(old(Snapshot()), chat).1) == r
                         && Snapshot() == InsertChat(old(Snapshot()), chat).0
    {
      if fault {
        return Err(StatementFailed);
      }
      var id := nextId;
      chats := chats[id := ChatRow(chat.userId, chat.title, chat.createdAt, chat.lastUpdated, chat.isArchived)];
      nextId := nextId + 1;
      r := Ok(chat.(id := id));
    }

    method GetChatByID(id: Id, fault: bool) returns (r: Result<Chat, DbError>)
      ensures r.Ok? <==> !fault && id in chats
      ensures r.Ok? ==> Some(r.value) == FindChat(Snapshot(), id)
      ensures !fault && id !in chats ==> r == Err(NoRows)
    {
      if fault {
        return Err(StatementFailed);
      }
      if id in chats {
        r := Ok(ChatOf(id, chats[id]));
      } else {
        r := Err(NoRows);
      }
    }

    /** UPDATE user_id, title, last_updated, is_archived WHERE id = $5: created_at is never rewritten. */
    method UpdateChat(chat: Chat, fault: bool) returns (r: Result<(), DbError>)
      requires Valid()
      modifies this
      ensures Valid()
      ensures r.Ok? <==> !fault
      ensures unchanged(this`users, this`aiModels, this`messages, this`nextId)
      ensures chats == if !fault && chat.id in old(chats)
                       then old(chats)[chat.id := ChatRow(chat.userId, chat.title, old(chats)[chat.id].createdAt,
                                                          chat.lastUpdated, chat.isArchived)]
                       else old(chats)
    {
      if fault {
        return Err(StatementFailed);
      }
      if chat.id in chats {
        var createdAt := chats[chat.id].createdAt;
        chats := chats[chat.id := ChatRow(chat.userId, chat.title, createdAt, chat.lastUpdated, chat.isArchived)];
      }
      r := Ok(());
    }

    method DeleteChat(id: Id, fault: bool) returns (r: Result<(), DbError>)
      requires Valid()
      modifies this
      ensures Valid()
      ensures r.Ok? <==> !fault
      ensures chats == if fault then old(chats) else old(chats) - {id}
      ensures unchanged(this`users, this`aiModels, this`messages, this`nextId)
    {
      if fault {
        return Err(StatementFailed);
      }
      chats := chats - {id};
      r := Ok(());
    }

    /** SELECT ... WHERE user_id = $1, in no particular order; any failure discards the partial list. */
    method GetChatsByUserID(userId: Id, fault: QueryFault) returns (r: Result<seq<Chat>, DbError>)
      ensures r.Err? <==> fault == QueryError || fault == IterError
                          || (fault.ScanErrorAt? && fault.row < |set id | id in chats && chats[id].userId == userId|)
      ensures r.Ok? ==> forall c :: c in r.value <==>
                          c.id in chats && chats[c.id].userId == userId && c == ChatOf(c.id, chats[c.id])
      ensures r.Ok? ==> forall i, j :: 0 <= i < j < |r.value| ==> r.value[i].id != r.value[j].id
    {
      if fault == QueryError {
        return Err(StatementFailed);
      }
      var matching := set id | id in chats && chats[id].userId == userId;
      var pending := matching;
      var list: seq<Chat> := [];
      while pending != {}
        invariant pending <= matching
        invariant |list| + |pending| == |matching|
        invariant forall i :: 0 <= i < |list| ==>
                    list[i].id in matching && list[i].id !in pending && list[i] == ChatOf(list[i].id, chats[list[i].id])
        invariant forall id :: id in matching && id !in pending ==> ChatOf(id, chats[id]) in list
        invariant forall i, j :: 0 <= i < j < |list| ==> list[i].id != list[j].id
        invariant !(fault.ScanErrorAt? && fault.row < |list|)
        decreases |pending|
      {
        Inhabited(pending);
        var id :| id in pending;
        if fault == ScanErrorAt(|list|) {
          return Err(ScanFailed);
        }
        list := list + [ChatOf(id, chats[id])];
        pending := pending - {id};
      }
      if fault == IterError {
        return Err(IterationFailed);
      }
      r := Ok(list);
    }

    // ----- messages (called by the chat handler, not defined in database.go)

    /** Appends the message to the log. */
    method CreateMessage(message: Message, fault: bool) returns (r: Result<(), DbError>)
      requires Valid()
      modifies this
      ensures Valid()
      ensures r.Ok? <==> !fault
      ensures messages == if fault then old(messages) else old(messages) + [message]
      ensures unchanged(this`users, this`aiModels, this`chats, this`nextId)
    {
      if fault {
        return Err(StatementFailed);
      }
      messages := messages + [message];
      r := Ok(());
    }

    /** The (role, content) history of one chat, oldest first. */
    method GetMessageContentsByChatID(chatId: Id, fault: bool) returns (r: Result<seq<MessageContent>, DbError>)
      ensures r.Ok? <==> !fault
      ensures r.Ok? ==> r.value == ContextsOf(messages, chatId)
    {
      if fault {
        return Err(StatementFailed);
      }
      r := Ok(ContextsOf(messages, chatId));
    }
  }
}
