/**
 * The access governance bot's update router. It records the Telegram ids
 * of users who join a chat, lets only private chats through, creates the
 * initial seeders on their first message, and hands a command, the
 * answer to a command under way, or an inline-button callback to the
 * registered command that accepts it.
 *
 * The router's result says what it answered itself, or which command's
 * `Handle` it calls with which text and which user; the commands' own
 * steps are modelled in their modules.
 */
module CommandHandler {
  import opened Wrappers
  import opened Models
  import opened GoStrings
  import opened Repositories
  import CreateProposal
  import AddComment
  import CancelProposal

  /** The sender of a message or callback. */
  datatype TgUser = TgUser(id: int, userName: string, firstName: string, lastName: string)

  /**
   * A message: its chat, sender and text, the command it carries when it
   * is one (`IsCommand()` and `Command()`), and the users it announces as
   * having joined the chat.
   */
  datatype Incoming = Incoming(chatId: int, from: TgUser, text: string, command: Option<string>,
                               newChatMembers: seq<TgUser>)

  /** An inline-button press: its sender, the chat of the message it is attached to (nil for none), and its data. */
  datatype Callback = Callback(from: TgUser, chatId: Option<int>, data: string)

  /** A `tgbotapi.Update`, by the two parts the router reads. */
  datatype Update = Update(message: Option<Incoming>, callback: Option<Callback>)

  /**
   * What the router does with an update: answers it itself, or calls
   * `Handle(text, "", user, chatID)` of the command named `command`, with
   * `user` nil when it is `None`.
   */
  datatype Routed =
    | Replied(ms: seq<Chattable>)
    | Dispatched(command: string, text: string, user: Option<UserRecord>, chatId: int)

  /** How the router ended, and the user table it leaves. */
  datatype Routing = Routing(reply: Outcome<Routed>, users: UserTable)

  /** The registered commands' names, in registration order; each accepts exactly its name. */
  const Registered: seq<string> := ["start", CancelProposal.CommandName, "approved_proposals",
                                    CreateProposal.CommandName, "pending_proposals", AddComment.CommandName]

  function Ignored(t: UserTable): Routing {
    Routing(Returned(Replied([])), t)
  }

  // ------------------------------------------------------------ join events

  /**
   * The join loop: each announced user's row, found by nickname, gets the
   * user's Telegram id; a failed lookup skips the user, and a nickname with
   * no row is dereferenced as nil and panics.
   */
  function Joined(members: seq<TgUser>, t: UserTable): (r: Routing)
    ensures r.reply == Returned(Replied([])) || r.reply == Panicked
    decreases |members|
  {
    if members == [] then Ignored(t)
    else
      match t.ByNickname(members[0].userName)
      case Failed => Joined(members[1..], t)
      case Missing => Routing(Panicked, t)
      case Found(u) => Joined(members[1..], t.Updated(u.(telegramId := members[0].id)))
  }

  predicate DistinctIds(rows: seq<UserRecord>) {
    forall i, j :: 0 <= i < j < |rows| ==> rows[i].id != rows[j].id
  }

  /** With unique keys, giving a row a new Telegram id changes that row alone. */
  lemma RetagOne(rows: seq<UserRecord>, j: int, telegramId: int)
    requires DistinctIds(rows) && 0 <= j < |rows|
    ensures ReplaceUser(rows, rows[j].(telegramId := telegramId)) == rows[j := rows[j].(telegramId := telegramId)]
  {
    var v := rows[j].(telegramId := telegramId);
    var r := ReplaceUser(rows, v);
    forall i | 0 <= i < |rows|
      ensures r[i] == rows[j := v][i]
    {
      if i < j {
        assert rows[i].id != rows[j].id;
      } else if j < i {
        assert rows[j].id != rows[i].id;
      }
    }
    assert r == rows[j := v];
  }

  /**
   * `r` is `rows` with some Telegram ids changed, each to the id of a member
   * of `members` whose user name is that row's nickname.
   */
  predicate Retagged(members: seq<TgUser>, rows: seq<UserRecord>, r: seq<UserRecord>) {
    |r| == |rows| &&
    forall i :: 0 <= i < |r| ==> (r[i] == rows[i] ||
      (r[i] == rows[i].(telegramId := r[i].telegramId) &&
       exists k :: 0 <= k < |members| && members[k].userName == rows[i].telegramNickname && members[k].id == r[i].telegramId))
  }

  /**
   * What the join loop writes: no row is added or dropped, and a row that
   * changes changes only its Telegram id, to the id of an announced user
   * with that row's nickname.
   */
  lemma {:induction false} JoinRetagsOnly(members: seq<TgUser>, t: UserTable)
    requires DistinctIds(t.rows)
    ensures Retagged(members, t.rows, Joined(members, t).users.rows)
    decreases |members|
  {
    if members != [] {
      var m := members[0];
      match t.ByNickname(m.userName)
      case Failed =>
        JoinRetagsOnly(members[1..], t);
        ShiftWitness(members, t.rows, Joined(members[1..], t).users.rows);
      case Missing =>
      case Found(u) =>
        var j :| 0 <= j < |t.rows| && t.rows[j] == u;
        var t1 := t.Updated(u.(telegramId := m.id));
        var rows1 := if UserUpdate(u.(telegramId := m.id)) in t.failing then t.rows else t.rows[j := u.(telegramId := m.id)];
        if UserUpdate(u.(telegramId := m.id)) !in t.failing {
          RetagOne(t.rows, j, m.id);
        }
        assert t1.rows == rows1;
        assert DistinctIds(t1.rows);
        JoinRetagsOnly(members[1..], t1);
        ComposeRetag(members, t.rows, j, rows1, Joined(members[1..], t1).users.rows);
    }
  }

  /** A witness among the later members is a witness among all of them. */
  lemma ShiftWitness(members: seq<TgUser>, rows: seq<UserRecord>, r: seq<UserRecord>)
    requires members != [] && Retagged(members[1..], rows, r)
    ensures Retagged(members, rows, r)
  {
    forall i | 0 <= i < |r| && r[i] != rows[i]
      ensures exists k :: 0 <= k < |members| && members[k].userName == rows[i].telegramNickname && members[k].id == r[i].telegramId
    {
      var k :| 0 <= k < |members[1..]| && members[1..][k].userName == rows[i].telegramNickname && members[1..][k].id == r[i].telegramId;
      assert members[k + 1] == members[1..][k];
    }
  }

  /** Retagging row `j` for the first member, then the rest for the later ones, retags for all. */
  lemma ComposeRetag(members: seq<TgUser>, rows: seq<UserRecord>, j: int, rows1: seq<UserRecord>, r: seq<UserRecord>)
    requires members != [] && 0 <= j < |rows| && rows[j].telegramNickname == members[0].userName
    requires rows1 == rows || rows1 == rows[j := rows[j].(telegramId := members[0].id)]
    requires Retagged(members[1..], rows1, r)
    ensures Retagged(members, rows, r)
  {
    forall i | 0 <= i < |r| && r[i] != rows[i]
      ensures r[i] == rows[i].(telegramId := r[i].telegramId)
      ensures exists k :: 0 <= k < |members| && members[k].userName == rows[i].telegramNickname && members[k].id == r[i].telegramId
    {
      assert rows1[i].telegramNickname == rows[i].telegramNickname;
      if r[i] != rows1[i] {
        var k :| 0 <= k < |members[1..]| && members[1..][k].userName == rows1[i].telegramNickname && members[1..][k].id == r[i].telegramId;
        assert members[k + 1] == members[1..][k];
      } else {
        assert i == j && r[i] == rows[j].(telegramId := members[0].id);
      }
    }
  }

  /** `r` is `rows` with, at most, other Telegram ids: keys, nicknames and every other field kept. */
  predicate SameButTags(rows: seq<UserRecord>, r: seq<UserRecord>) {
    |r| == |rows| && forall i :: 0 <= i < |rows| ==> r[i] == rows[i].(telegramId := r[i].telegramId)
  }

  /** Retagging a stored row keeps the table's shape and its unique keys. */
  lemma RetagKeepsShape(t: UserTable, u: UserRecord, telegramId: int)
    requires DistinctIds(t.rows) && u in t.rows
    ensures var t1 := t.Updated(u.(telegramId := telegramId));
      t1.failing == t.failing && SameButTags(t.rows, t1.rows) && DistinctIds(t1.rows)
  {
    var j :| 0 <= j < |t.rows| && t.rows[j] == u;
    if UserUpdate(u.(telegramId := telegramId)) !in t.failing {
      RetagOne(t.rows, j, telegramId);
    }
  }

  /** Tables that differ only in Telegram ids answer a nickname lookup alike. */
  lemma SameNicknameLookup(t: UserTable, t1: UserTable, name: string)
    requires t1.failing == t.failing && SameButTags(t.rows, t1.rows)
    ensures t1.ByNickname(name).Missing? <==> t.ByNickname(name).Missing?
  {
    assert forall i :: 0 <= i < |t.rows| ==> t1.rows[i].telegramNickname == t.rows[i].telegramNickname;
  }

  /** The nickname lookup finds row `j` when it is the first row with that nickname. */
  lemma NicknameFindsFirst(t: UserTable, name: string, j: int)
    requires DistinctIds(t.rows) && 0 <= j < |t.rows| && UserByNickname(name) !in t.failing
    requires t.rows[j].telegramNickname == name
    requires forall i :: 0 <= i < j ==> t.rows[i].telegramNickname != name
    ensures t.ByNickname(name) == Found(t.rows[j])
  {
    var r := t.ByNickname(name);
    assert !r.Missing?;
    var i :| 0 <= i < |t.rows| && t.rows[i] == r.value && forall k :: 0 <= k < i ==> t.rows[k].telegramNickname != name;
    assert i == j;
  }

  /** Members with other user names leave row `j` as it is, even when a later lookup panics. */
  lemma {:induction false} JoinKeeps(members: seq<TgUser>, t: UserTable, j: int)
    requires DistinctIds(t.rows) && 0 <= j < |t.rows|
    requires forall i :: 0 <= i < |members| ==> members[i].userName != t.rows[j].telegramNickname
    ensures var r := Joined(members, t).users.rows; j < |r| && r[j] == t.rows[j]
    decreases |members|
  {
    if members != [] {
      var m := members[0];
      match t.ByNickname(m.userName)
      case Failed =>
        JoinKeeps(members[1..], t, j);
      case Missing =>
      case Found(u) =>
        var t1 := t.Updated(u.(telegramId := m.id));
        RetagKeepsShape(t, u, m.id);
        var i :| 0 <= i < |t.rows| && t.rows[i] == u;
        assert i != j;
        assert t.rows[i].id != t.rows[j].id by {
          if i < j { assert t.rows[i].id != t.rows[j].id; } else { assert t.rows[j].id != t.rows[i].id; }
        }
        assert t1.rows[j] == t.rows[j];
        JoinKeeps(members[1..], t1, j);
    }
  }

  /**
   * What the join loop is for: an announced member whose nickname is first
   * found at row `j` gets its Telegram id written there, unless that update
   * fails; the write stands when no later member announces the same
   * nickname, and also when a later lookup panics. The members before it
   * must not panic the loop first.
   */
  lemma {:induction false} JoinRetagsFound(members: seq<TgUser>, t: UserTable, k: int, j: int)
    requires DistinctIds(t.rows) && 0 <= k < |members| && 0 <= j < |t.rows|
    requires forall i :: 0 <= i < k ==> !t.ByNickname(members[i].userName).Missing?
    requires UserByNickname(members[k].userName) !in t.failing
    requires t.rows[j].telegramNickname == members[k].userName
    requires forall i :: 0 <= i < j ==> t.rows[i].telegramNickname != members[k].userName
    requires UserUpdate(t.rows[j].(telegramId := members[k].id)) !in t.failing
    requires forall i :: k < i < |members| ==> members[i].userName != members[k].userName
    ensures var r := Joined(members, t).users.rows; j < |r| && r[j] == t.rows[j].(telegramId := members[k].id)
    decreases k
  {
    var m := members[0];
    if k == 0 {
      NicknameFindsFirst(t, m.userName, j);
      var v := t.rows[j].(telegramId := m.id);
      var t1 := t.Updated(v);
      RetagOne(t.rows, j, m.id);
      assert t1.rows == t.rows[j := v];
      RetagKeepsShape(t, t.rows[j], m.id);
      forall i | 0 <= i < |members[1..]|
        ensures members[1..][i].userName != t1.rows[j].telegramNickname
      {
        assert members[1..][i] == members[i + 1];
      }
      JoinKeeps(members[1..], t1, j);
    } else {
      assert !t.ByNickname(m.userName).Missing?;
      var t1 := if t.ByNickname(m.userName).Failed? then t
                else t.Updated(t.ByNickname(m.userName).value.(telegramId := m.id));
      if t.ByNickname(m.userName).Found? {
        RetagKeepsShape(t, t.ByNickname(m.userName).value, m.id);
      }
      assert Joined(members, t) == Joined(members[1..], t1);
      assert t1.failing == t.failing && SameButTags(t.rows, t1.rows) && DistinctIds(t1.rows);
      var rest := members[1..];
      forall i | 0 <= i < k - 1
        ensures !t1.ByNickname(rest[i].userName).Missing?
      {
        assert rest[i] == members[i + 1];
        SameNicknameLookup(t, t1, rest[i].userName);
      }
      assert rest[k - 1] == members[k];
      forall i | 0 <= i < j
        ensures t1.rows[i].telegramNickname != rest[k - 1].userName
      {
        assert t1.rows[i] == t.rows[i].(telegramId := t1.rows[i].telegramId);
      }
      assert t1.rows[j] == t.rows[j].(telegramId := t1.rows[j].telegramId);
      assert t1.rows[j].(telegramId := members[k].id) == t.rows[j].(telegramId := members[k].id);
      forall i | k - 1 < i < |rest|
        ensures rest[i].userName != rest[k - 1].userName
      {
        assert rest[i] == members[i + 1];
      }
      JoinRetagsFound(rest, t1, k - 1, j);
    }
  }

  // ------------------------------------------------------------ bootstrap

  /** The `Name` closure: the non-empty first and last names, joined by one space. */
  function DisplayName(first: string, last: string): (name: string)
    ensures name == (if first == "" then last else if last == "" then first else first + " " + last)
  {
    var parts := (if first != "" then [first] else []) + (if last != "" then [last] else []);
    assert first != "" && last != "" ==> parts == [first, last] && Join(parts, ' ') == first + [' '] + last;
    Join(parts, ' ')
  }

  /** A display name built from two space-free names splits back into them. */
  lemma NameSplitsBack(first: string, last: string)
    requires first != "" && last != "" && Free(first, ' ') && Free(last, ' ')
    ensures Split(DisplayName(first, last), ' ') == [first, last]
  {
    assert DisplayName(first, last) == Join([first, last], ' ');
    SplitJoin([first, last], ' ');
  }

  /** The row `createUserIfNeeded` inserts for an initial seeder. */
  function Newcomer(from: TgUser): UserRecord {
    ZeroUser.(name := DisplayName(from.firstName, from.lastName), telegramId := from.id,
              telegramNickname := from.userName, role := Seeder)
  }

  /** Who the router goes on with: a user, or the refusal it answers. */
  datatype Account = Known(user: UserRecord) | Refused(m: Chattable)

  /**
   * `createUserIfNeeded`: a stored user, or the zero user a failed lookup
   * leaves behind; an unknown sender is created as a seeder exactly when
   * its user name is an initial seeder's, and refused otherwise.
   */
  function Bootstrap(from: TgUser, chatId: int, t: UserTable, seeders: seq<string>): (r: (Account, UserTable))
    ensures t.ByTelegramId(from.id).Found? ==> r == (Known(t.ByTelegramId(from.id).value), t)
    ensures t.ByTelegramId(from.id).Failed? ==> r == (Known(ZeroUser), t)
    ensures t.ByTelegramId(from.id).Missing? && from.userName !in seeders ==>
      r == (Refused(NewMessage(chatId, NotCommunityMember)), t)
    ensures t.ByTelegramId(from.id).Missing? && from.userName in seeders ==>
      r.1 == t.Created(Newcomer(from)) &&
      r.0 == (if UserCreate(Newcomer(from)) in t.failing then Refused(NewMessage(chatId, DefaultError))
              else Known(Newcomer(from).(id := t.nextId)))
  {
    match UserPointer(t.ByTelegramId(from.id))
    case Some(u) => (Known(u), t)
    case None =>
      if from.userName in seeders then
        match t.CreateAnswer(Newcomer(from))
        case Found(v) => (Known(v), t.Created(Newcomer(from)))
        case _ => (Refused(NewMessage(chatId, DefaultError)), t.Created(Newcomer(from)))
      else (Refused(NewMessage(chatId, NotCommunityMember)), t)
  }

  // ------------------------------------------------------------ dispatch

  /** The user pointer `Update` hands back: the row selected again, or nil. */
  function Saved(t: UserTable, u: UserRecord): (r: Option<UserRecord>)
    ensures r.Some? <==> t.UpdateAnswer(u).Found?
    ensures r.Some? ==> r.value == u
  {
    match t.UpdateAnswer(u)
    case Found(v) => Some(v)
    case _ => None
  }

  /**
   * `tryToHandleCommand`: a registered command starts afresh, with no
   * draft and only the command remembered; the handler gets the user the
   * save answers, which is nil when the save fails.
   */
  function CommandRoute(command: string, u: UserRecord, chatId: int, t: UserTable): Routing {
    if command !in Registered then Ignored(t)
    else
      var v := u.(tempProposal := NoProposal, telegramState := TelegramState(command, ""));
      Routing(Returned(Dispatched(command, command, Saved(t, v), chatId)), t.Updated(v))
  }

  /** `tryToHandleSubCommand`: the command under way is named by what precedes its first ':'. */
  function SubRoute(lastCommand: string, text: string, u: UserRecord, chatId: int, t: UserTable): Routing {
    var command := Split(lastCommand, ':')[0];
    if command !in Registered then Ignored(t)
    else Routing(Returned(Dispatched(command, text, Some(u), chatId)), t)
  }

  /**
   * `tryToHandleQueryCallback`: the command is named by what precedes the
   * data's first ':', and the whole data is remembered as the last command.
   */
  function CallbackRoute(data: string, u: UserRecord, chatId: int, t: UserTable): Routing {
    var command := Split(data, ':')[0];
    if command !in Registered then Ignored(t)
    else
      var v := u.(telegramState := u.telegramState.(lastCommand := data));
      Routing(Returned(Dispatched(command, data, Saved(t, v), chatId)), t.Updated(v))
  }

  /** What the router does once it has a user: a command, the answer to one under way, or a callback. */
  function Dispatch(update: Update, u: UserRecord, chatId: int, t: UserTable): Routing {
    if update.message.Some? && update.message.value.command.Some? then
      CommandRoute(update.message.value.command.value, u, chatId, t)
    else if update.message.Some? && u.telegramState.lastCommand != "" then
      SubRoute(u.telegramState.lastCommand, update.message.value.text, u, chatId, t)
    else if update.callback.Some? then CallbackRoute(update.callback.value.data, u, chatId, t)
    else Ignored(t)
  }

  // ------------------------------------------------------------ the router

  /** `len(message.NewChatMembers) > 0` as written: on a callback the message is nil, and reading it panics. */
  function JoinEventAsWritten(update: Update): Outcome<bool> {
    if update.message.None? then Panicked else Returned(|update.message.value.newChatMembers| > 0)
  }

  /** The join test as intended: a message that announces users. */
  function IsJoinEvent(update: Update): bool {
    update.message.Some? && |update.message.value.newChatMembers| > 0
  }

  /**
   * `Handle`, with the join test given: an update with neither part is
   * ignored; a callback on no message panics reading its chat; a join
   * event is recorded; a group chat is ignored; then the sender's account
   * is found or created and the update dispatched.
   */
  function RouteWith(update: Update, joinEvent: Outcome<bool>, t: UserTable, seeders: seq<string>): Routing {
    if update.message.None? && update.callback.None? then Ignored(t)
    else if update.message.None? && update.callback.value.chatId.None? then Routing(Panicked, t)
    else
      var chatId := if update.message.Some? then update.message.value.chatId else update.callback.value.chatId.value;
      var from := if update.message.Some? then update.message.value.from else update.callback.value.from;
      match joinEvent
      case Panicked => Routing(Panicked, t)
      case Returned(joining) =>
        if joining && update.message.Some? then Joined(update.message.value.newChatMembers, t)
        else if from.id != chatId then Ignored(t)
        else
          var (account, t1) := Bootstrap(from, chatId, t, seeders);
          match account
          case Refused(m) => Routing(Returned(Replied([m])), t1)
          case Known(u) => Dispatch(update, u, chatId, t1)
  }

  function RouteAsWritten(update: Update, t: UserTable, seeders: seq<string>): Routing {
    RouteWith(update, JoinEventAsWritten(update), t, seeders)
  }

  /** The router with the join test corrected. */
  function Route(update: Update, t: UserTable, seeders: seq<string>): Routing {
    RouteWith(update, Returned(IsJoinEvent(update)), t, seeders)
  }

  // ------------------------------------------------------------ properties

  /** As written, every update that carries only a callback panics, before any write. */
  lemma CallbackUpdatesPanic(update: Update, t: UserTable, seeders: seq<string>)
    requires update.message.None? && update.callback.Some?
    ensures RouteAsWritten(update, t, seeders) == Routing(Panicked, t)
  {
  }

  /** The two join tests agree on every update that carries a message. */
  lemma JoinTestsAgreeOnMessages(update: Update, t: UserTable, seeders: seq<string>)
    requires update.message.Some?
    ensures RouteAsWritten(update, t, seeders) == Route(update, t, seeders)
  {
  }

  /** The router ignores an update with neither part, and a message in a group chat that announces nobody. */
  lemma Ignores(update: Update, t: UserTable, seeders: seq<string>)
    ensures update.message.None? && update.callback.None? ==> Route(update, t, seeders) == Ignored(t)
    ensures (update.message.Some? && update.message.value.newChatMembers == [] &&
             update.message.value.from.id != update.message.value.chatId) ==> Route(update, t, seeders) == Ignored(t)
  {
  }

  /**
   * A private message from a sender with no row creates a row exactly when
   * the sender's user name is an initial seeder's: a seeder named by its
   * first and last names; any other sender is refused and nothing is written.
   */
  lemma SeedersBootstrapped(m: Incoming, t: UserTable, seeders: seq<string>)
    requires m.newChatMembers == [] && m.from.id == m.chatId && t.ByTelegramId(m.from.id).Missing?
    ensures
      var r := Route(Update(Some(m), None), t, seeders);
      (|r.users.rows| == |t.rows| + 1 <==> m.from.userName in seeders && UserCreate(Newcomer(m.from)) !in t.failing) &&
      (|r.users.rows| == |t.rows| + 1 ==>
        var row := r.users.rows[|t.rows|];
        row.role == Seeder && row.telegramId == m.from.id && row.telegramNickname == m.from.userName &&
        row.name == DisplayName(m.from.firstName, m.from.lastName) && row.id == t.nextId) &&
      (m.from.userName !in seeders ==> r == Routing(Returned(Replied([NewMessage(m.chatId, NotCommunityMember)])), t))
  {
  }

  /**
   * A private command from a stored user: a registered one is handed to
   * its command with the draft cleared and only the command remembered;
   * any other is ignored.
   */
  lemma CommandsStartAfresh(m: Incoming, c: string, t: UserTable, seeders: seq<string>, u: UserRecord)
    requires m.newChatMembers == [] && m.from.id == m.chatId && m.command == Some(c)
    requires t.ByTelegramId(m.from.id) == Found(u)
    ensures
      var v := u.(tempProposal := NoProposal, telegramState := TelegramState(c, ""));
      Route(Update(Some(m), None), t, seeders) ==
        if c in Registered then Routing(Returned(Dispatched(c, c, Saved(t, v), m.chatId)), t.Updated(v))
        else Ignored(t)
  {
  }

  /** A command under way named `c:<rest>` goes back to command `c`, with the message text. */
  lemma SubCommandsByPrefix(m: Incoming, c: string, rest: string, t: UserTable, seeders: seq<string>, u: UserRecord)
    requires m.newChatMembers == [] && m.from.id == m.chatId && m.command.None?
    requires t.ByTelegramId(m.from.id) == Found(u) && u.telegramState.lastCommand == c + ":" + rest
    requires Free(c, ':') && c in Registered
    ensures Route(Update(Some(m), None), t, seeders) == Routing(Returned(Dispatched(c, m.text, Some(u), m.chatId)), t)
  {
    assert c + ":" + rest == c + [':'] + rest;
    SplitConcat(c, rest, ':');
  }

  /**
   * Plain text from a stored user with a command under way goes to the
   * command named by everything before the first ':' of the remembered
   * command, when that is registered, and is dropped otherwise.
   */
  lemma SubCommandsByHead(m: Incoming, t: UserTable, seeders: seq<string>, u: UserRecord)
    requires m.newChatMembers == [] && m.from.id == m.chatId && m.command.None?
    requires t.ByTelegramId(m.from.id) == Found(u) && u.telegramState.lastCommand != ""
    ensures var c := Head(u.telegramState.lastCommand, ':');
      Route(Update(Some(m), None), t, seeders) ==
        if c in Registered then Routing(Returned(Dispatched(c, m.text, Some(u), m.chatId)), t) else Ignored(t)
  {
    SplitHead(u.telegramState.lastCommand, ':');
  }

  /** A stored user with no command under way, like one who has just cancelled, gets no answer to plain text. */
  lemma PlainTextWithoutCommandIgnored(m: Incoming, t: UserTable, seeders: seq<string>, u: UserRecord)
    requires m.newChatMembers == [] && m.from.id == m.chatId && m.command.None?
    requires t.ByTelegramId(m.from.id) == Found(u) && u.telegramState == NoState
    ensures Route(Update(Some(m), None), t, seeders) == Ignored(t)
  {
  }

  /**
   * With the join test corrected, a callback `add_comment:<t>` from a stored
   * user in a private chat reaches `add_comment` with its whole data, which
   * is also remembered as the last command.
   */
  lemma CallbacksReachCommands(from: TgUser, chatId: int, tail: string, t: UserTable, seeders: seq<string>,
                               u: UserRecord)
    requires from.id == chatId && t.ByTelegramId(from.id) == Found(u)
    ensures
      var data := AddComment.CommandName + ":" + tail;
      var v := u.(telegramState := u.telegramState.(lastCommand := data));
      Route(Update(None, Some(Callback(from, Some(chatId), data))), t, seeders) ==
        Routing(Returned(Dispatched(AddComment.CommandName, data, Saved(t, v), chatId)), t.Updated(v))
  {
    var data := AddComment.CommandName + ":" + tail;
    assert Free(AddComment.CommandName, ':');
    assert data == AddComment.CommandName + [':'] + tail;
    SplitConcat(AddComment.CommandName, tail, ':');
  }

  /**
   * The answers the create-proposal keyboards offer come back as callbacks
   * whose data names no registered command, so the router drops them.
   */
  lemma KeyboardAnswersIgnored(from: TgUser, chatId: int, t: UserTable, seeders: seq<string>, u: UserRecord, data: string)
    requires from.id == chatId && t.ByTelegramId(from.id) == Found(u)
    requires data in {CreateProposal.ConfirmYes, CreateProposal.TypeMember, CreateProposal.TypeSeeder}
    ensures Route(Update(None, Some(Callback(from, Some(chatId), data))), t, seeders) == Ignored(t)
  {
    assert Free(data, ':');
    SplitFree(data, ':');
    assert data !in Registered;
    assert Bootstrap(from, chatId, t, seeders) == (Known(u), t);
  }

  // ------------------------------------------------------------ the handler

  /** Whether `name` is in `names`, by the loop over the list. */
  method Contains(names: seq<string>, name: string) returns (found: bool)
    ensures found <==> name in names
  {
    var i := 0;
    while i < |names|
      invariant 0 <= i <= |names|
      invariant name !in names[..i]
    {
      if names[i] == name {
        return true;
      }
      assert names[..i + 1] == names[..i] + [names[i]];
      i := i + 1;
    }
    assert names[..i] == names;
    return false;
  }

  /** The join loop of `Handle`. */
  method RecordJoins(members: seq<TgUser>, users: UserStore) returns (o: Outcome<Routed>)
    modifies users`rows
    ensures Joined(members, old(users.Table())) == Routing(o, users.Table())
  {
    var i := 0;
    while i < |members|
      invariant 0 <= i <= |members|
      invariant Joined(members, old(users.Table())) == Joined(members[i..], users.Table())
    {
      var m := members[i];
      assert members[i..][0] == m && members[i..][1..] == members[i + 1..];
      var found := users.Table().ByNickname(m.userName);
      if found.Missing? {
        return Panicked;
      }
      if found.Found? {
        var _ := users.Update(found.value.(telegramId := m.id));
      }
      i := i + 1;
    }
    o := Returned(Replied([]));
  }

  /** `createUserIfNeeded`. */
  method CreateUserIfNeeded(from: TgUser, chatId: int, users: UserStore, seeders: seq<string>) returns (account: Account)
    modifies users`rows, users`nextId
    ensures Bootstrap(from, chatId, old(users.Table()), seeders) == (account, users.Table())
  {
    var found := users.ByTelegramId(from.id);
    if found.Found? {
      return Known(found.value);
    }
    if found.Failed? {
      return Known(ZeroUser);
    }
    var isSeeder := Contains(seeders, from.userName);
    if !isSeeder {
      return Refused(NewMessage(chatId, NotCommunityMember));
    }
    var created := users.Create(Newcomer(from));
    if created.Failed? {
      return Refused(NewMessage(chatId, DefaultError));
    }
    account := Known(created.value);
  }

  /** `tryToHandleCommand`. */
  method TryToHandleCommand(command: string, user: User, users: UserStore, chatId: int) returns (r: Routed)
    modifies user, users`rows
    ensures CommandRoute(command, old(user.Record()), chatId, old(users.Table())) == Routing(Returned(r), users.Table())
  {
    var known := Contains(Registered, command);
    if !known {
      return Replied([]);
    }
    user.tempProposal := NoProposal;
    user.telegramState := TelegramState(command, "");
    var saved := users.Update(user.Record());
    r := Dispatched(command, command, if saved.Found? then Some(saved.value) else None, chatId);
  }

  /** `tryToHandleSubCommand`. */
  method TryToHandleSubCommand(lastCommand: string, text: string, user: User, users: UserStore, chatId: int)
    returns (r: Routed)
    ensures SubRoute(lastCommand, text, user.Record(), chatId, users.Table()) == Routing(Returned(r), users.Table())
  {
    var command := Split(lastCommand, ':')[0];
    var known := Contains(Registered, command);
    if !known {
      return Replied([]);
    }
    r := Dispatched(command, text, Some(user.Record()), chatId);
  }

  /** `tryToHandleQueryCallback`. */
  method TryToHandleQueryCallback(data: string, user: User, users: UserStore, chatId: int) returns (r: Routed)
    modifies user, users`rows
    ensures CallbackRoute(data, old(user.Record()), chatId, old(users.Table())) == Routing(Returned(r), users.Table())
  {
    var parts := Split(data, ':');
    var command := parts[0];
    var known := Contains(Registered, command);
    if !known {
      return Replied([]);
    }
    user.telegramState := user.telegramState.(lastCommand := data);
    var saved := users.Update(user.Record());
    r := Dispatched(command, data, if saved.Found? then Some(saved.value) else None, chatId);
  }

  /** `Handle`, with the join test corrected. */
  method Handle(update: Update, users: UserStore, seeders: seq<string>) returns (o: Outcome<Routed>)
    modifies users`rows, users`nextId
    ensures Route(update, old(users.Table()), seeders) == Routing(o, users.Table())
  {
    if update.message.None? && update.callback.None? {
      return Returned(Replied([]));
    }
    var chatId: int;
    var from: TgUser;
    if update.message.Some? {
      chatId := update.message.value.chatId;
      from := update.message.value.from;
    } else {
      if update.callback.value.chatId.None? {
        return Panicked;
      }
      chatId := update.callback.value.chatId.value;
      from := update.callback.value.from;
    }
    if update.message.Some? && |update.message.value.newChatMembers| > 0 {
      o := RecordJoins(update.message.value.newChatMembers, users);
      return;
    }
    if from.id != chatId {
      return Returned(Replied([]));
    }
    var account := CreateUserIfNeeded(from, chatId, users, seeders);
    if account.Refused? {
      return Returned(Replied([account.m]));
    }
    var user := new User.Load(account.user);
    var r: Routed;
    if update.message.Some? && update.message.value.command.Some? {
      r := TryToHandleCommand(update.message.value.command.value, user, users, chatId);
    } else if update.message.Some? && user.telegramState.lastCommand != "" {
      r := TryToHandleSubCommand(user.telegramState.lastCommand, update.message.value.text, user, users, chatId);
    } else if update.callback.Some? {
      r := TryToHandleQueryCallback(update.callback.value.data, user, users, chatId);
    } else {
      r := Replied([]);
    }
    o := Returned(r);
  }
}
