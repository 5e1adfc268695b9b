/**
 * The older bot's router. It answers one message at a time with at most
 * one message, creates an initial seeder with only its Telegram id and
 * role, and sends the answer to a command under way to the command named
 * by the whole remembered command.
 *
 * Its repository's `GetOne` reports "no such row" as an error of its own;
 * that error is `Missing` here and every other error is `Failed`.
 */
module LegacyCommandHandler {
  import opened Wrappers
  import opened Models
  import opened GoStrings
  import opened Repositories
  import CommandHandler

  /** What the router does: answer with one message (`Nil` for Go's nil), or call `Start(text, user, chatID)` of a command. */
  datatype Routed =
    | Answered(m: Chattable)
    | Dispatched(command: string, text: string, user: Option<UserRecord>, chatId: int)

  datatype Routing = Routing(reply: Outcome<Routed>, users: UserTable)

  /** The row the older router inserts for an initial seeder. */
  function Newcomer(telegramId: int): UserRecord {
    ZeroUser.(telegramId := telegramId, role := Seeder)
  }

  /**
   * `Handle`, given the message (`None` for an update without one), the
   * registered commands' names and the initial seeders' user names. A
   * message's sender is found by Telegram id, or created when it has no
   * row and is an initial seeder; a failed creation answers nil.
   */
  function Route(message: Option<CommandHandler.Incoming>, commands: seq<string>, t: UserTable, seeders: seq<string>): (r: Routing)
    ensures message.None? ==> r == Routing(Returned(Answered(Nil)), t)
  {
    if message.None? then Routing(Returned(Answered(Nil)), t)
    else
      var m := message.value;
      match t.ByTelegramId(m.from.id)
      case Failed => Routing(Returned(Answered(NewMessage(m.chatId, NotCommunityMember))), t)
      case Missing =>
        if m.from.userName !in seeders then Routing(Returned(Answered(NewMessage(m.chatId, NotCommunityMember))), t)
        else
          var t1 := t.Created(Newcomer(m.from.id));
          (match t.CreateAnswer(Newcomer(m.from.id))
           case Found(u) => Dispatch(m, commands, u, t1)
           case _ => Routing(Returned(Answered(Nil)), t1))
      case Found(u) => Dispatch(m, commands, u, t)
  }

  /**
   * A registered command is remembered and handed the user the save
   * answers (nil when it fails); other text goes, unchanged, to the
   * command named by the whole remembered command.
   */
  function Dispatch(m: CommandHandler.Incoming, commands: seq<string>, u: UserRecord, t: UserTable): Routing {
    if m.command.Some? then
      var c := m.command.value;
      if c !in commands then Routing(Returned(Answered(Nil)), t)
      else
        var v := u.(telegramState := u.telegramState.(lastCommand := c));
        Routing(Returned(Dispatched(c, c, CommandHandler.Saved(t, v), m.chatId)), t.Updated(v))
    else if u.telegramState.lastCommand != "" then
      var c := u.telegramState.lastCommand;
      if c !in commands then Routing(Returned(Answered(Nil)), t)
      else Routing(Returned(Dispatched(c, m.text, Some(u), m.chatId)), t)
    else Routing(Returned(Answered(Nil)), t)
  }

  // ------------------------------------------------------------ properties

  /**
   * A sender with no row gets a row exactly when it is an initial seeder
   * and creating it succeeds: a seeder with nothing but its Telegram id,
   * and the command it sent once that is remembered.
   * A failed lookup is refused like a stranger.
   */
  lemma SeedersBootstrapped(m: CommandHandler.Incoming, commands: seq<string>, t: UserTable, seeders: seq<string>)
    ensures
      var r := Route(Some(m), commands, t, seeders);
      (|r.users.rows| == |t.rows| + 1 <==>
        t.ByTelegramId(m.from.id).Missing? && m.from.userName in seeders && UserCreate(Newcomer(m.from.id)) !in t.failing) &&
      (|r.users.rows| == |t.rows| + 1 ==>
        r.users.rows[|t.rows|].(telegramState := NoState) == ZeroUser.(id := t.nextId, telegramId := m.from.id, role := Seeder)) &&
      (t.ByTelegramId(m.from.id).Failed? ==> r == Routing(Returned(Answered(NewMessage(m.chatId, NotCommunityMember))), t))
  {
    var r := Route(Some(m), commands, t, seeders);
    if t.ByTelegramId(m.from.id).Found? {
      var u := t.ByTelegramId(m.from.id).value;
      assert |Dispatch(m, commands, u, t).users.rows| == |t.rows|;
    } else if t.ByTelegramId(m.from.id).Missing? && m.from.userName in seeders && UserCreate(Newcomer(m.from.id)) !in t.failing {
      var t1 := t.Created(Newcomer(m.from.id));
      assert |Dispatch(m, commands, t.CreateAnswer(Newcomer(m.from.id)).value, t1).users.rows| == |t1.rows|;
    }
  }

  /**
   * Unlike the current router, the older one names the command under way
   * by the whole remembered command: one remembered as `c:<rest>` reaches
   * no command whose name holds no ':'.
   */
  lemma SubCommandsByWholeName(m: CommandHandler.Incoming, commands: seq<string>, t: UserTable, seeders: seq<string>,
                               u: UserRecord, c: string, rest: string)
    requires m.command.None? && t.ByTelegramId(m.from.id) == Found(u)
    requires u.telegramState.lastCommand == c + ":" + rest
    requires forall k :: 0 <= k < |commands| ==> Free(commands[k], ':')
    ensures Route(Some(m), commands, t, seeders) == Routing(Returned(Answered(Nil)), t)
  {
    var whole := c + ":" + rest;
    assert whole[|c|] == ':';
    assert !Free(whole, ':');
  }

  /**
   * Plain text from a stored user with a registered command under way goes
   * to that command, with the message text and the stored user as they
   * are; nothing is written.
   */
  lemma PlainTextContinuesCommand(m: CommandHandler.Incoming, commands: seq<string>, t: UserTable, seeders: seq<string>,
                                  u: UserRecord)
    requires m.command.None? && t.ByTelegramId(m.from.id) == Found(u)
    requires u.telegramState.lastCommand != ""
    ensures Route(Some(m), commands, t, seeders) ==
      if u.telegramState.lastCommand in commands
      then Routing(Returned(Dispatched(u.telegramState.lastCommand, m.text, Some(u), m.chatId)), t)
      else Routing(Returned(Answered(Nil)), t)
  {
  }

  /** A stored user's registered command is remembered, draft and step untouched, and handed on. */
  lemma CommandsRemembered(m: CommandHandler.Incoming, commands: seq<string>, t: UserTable, seeders: seq<string>,
                           u: UserRecord, c: string)
    requires m.command == Some(c) && c in commands && t.ByTelegramId(m.from.id) == Found(u)
    ensures
      var v := u.(telegramState := TelegramState(c, u.telegramState.lastCommandState));
      Route(Some(m), commands, t, seeders) ==
        Routing(Returned(Dispatched(c, c, CommandHandler.Saved(t, v), m.chatId)), t.Updated(v))
  {
  }

  // ------------------------------------------------------------ the handler

  /** `Handle`. */
  method Handle(message: Option<CommandHandler.Incoming>, commands: seq<string>, users: UserStore, seeders: seq<string>)
    returns (o: Outcome<Routed>)
    modifies users`rows, users`nextId
    ensures Route(message, commands, old(users.Table()), seeders) == Routing(o, users.Table())
  {
    if message.None? {
      return Returned(Answered(Nil));
    }
    var m := message.value;
    var found := users.ByTelegramId(m.from.id);
    var account: UserRecord;
    if found.Found? {
      account := found.value;
    } else {
      var isSeeder := false;
      if found.Missing? {
        isSeeder := CommandHandler.Contains(seeders, m.from.userName);
      }
      if !isSeeder {
        return Returned(Answered(NewMessage(m.chatId, NotCommunityMember)));
      }
      var created := users.Create(Newcomer(m.from.id));
      if created.Failed? {
        return Returned(Answered(Nil));
      }
      account := created.value;
    }
    var user := new User.Load(account);
    if m.command.Some? {
      var c := m.command.value;
      var known := CommandHandler.Contains(commands, c);
      if !known {
        return Returned(Answered(Nil));
      }
      user.telegramState := user.telegramState.(lastCommand := c);
      var saved := users.Update(user.Record());
      return Returned(Dispatched(c, c, if saved.Found? then Some(saved.value) else None, m.chatId));
    } else if user.telegramState.lastCommand != "" {
      var c := user.telegramState.lastCommand;
      var known := CommandHandler.Contains(commands, c);
      if !known {
        return Returned(Answered(Nil));
      }
      return Returned(Dispatched(c, m.text, Some(user.Record()), m.chatId));
    }
    o := Returned(Answered(Nil));
  }
}
