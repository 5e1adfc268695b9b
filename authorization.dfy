/**
 * `/start <discord id>` of the authorisation bot: grants the Discord
 * member role to the given Discord account, records the account on the
 * user and promotes a guest to member. A member or seeder whose Discord
 * account is already recorded is told so and nothing else happens.
 */
module Authorization {
  import opened Wrappers
  import opened Models
  import opened GoStrings
  import opened Repositories
  import opened Transport
  import opened Conversation

  const CommandName := "start"

  /** A member or seeder whose Discord account is recorded. */
  predicate AlreadyAuthorized(u: UserRecord) {
    (u.role == Member || u.role == Seeder) && u.discordId != 0
  }

  /** The role after authorisation: a guest becomes a member, every other role stays. */
  function Promoted(r: Role): (p: Role)
    ensures Rank(p) >= Rank(r)
    ensures p != r <==> r == Guest
    ensures r == Guest ==> p == Member
  {
    if r == Guest then Member else r
  }

  /**
   * `Handle`, with `refusing` the Discord ids for which the role grant
   * fails. After a granted role the id is parsed into the user in memory
   * even when parsing fails; only a parsed id is persisted.
   */
  function StartStep(discordId: string, u: UserRecord, w: World, chatId: int, refusing: set<string>): (s: Step<seq<Chattable>>)
    ensures s.reply.Returned? && |s.reply.value| == 1
    ensures AlreadyAuthorized(u) ==> s == Step(u, Returned([NewMessage(chatId, Authorized)]), w)
    ensures !AlreadyAuthorized(u) && discordId in refusing ==>
      s == Step(u, Returned([NewMessage(chatId, DefaultError)]), w)
    ensures !AlreadyAuthorized(u) && discordId !in refusing && !Atoi(discordId).1 ==>
      s == Step(u.(discordId := Atoi(discordId).0), Returned([NewMessage(chatId, DefaultError)]), w)
    ensures !AlreadyAuthorized(u) && discordId !in refusing && Atoi(discordId).1 ==>
      s.user == u.(discordId := Atoi(discordId).0, role := Promoted(u.role)) &&
      s.world == w.Save(s.user) &&
      s.reply == Returned([NewMessage(chatId, if w.SaveFails(s.user) then DefaultError else Authorized)])
  {
    if AlreadyAuthorized(u) then Step(u, Returned([NewMessage(chatId, Authorized)]), w)
    else if discordId in refusing then Step(u, Returned([NewMessage(chatId, DefaultError)]), w)
    else
      var parsed := Atoi(discordId);
      var v := u.(discordId := parsed.0);
      if !parsed.1 then Step(v, Returned([NewMessage(chatId, DefaultError)]), w)
      else
        var p := v.(role := Promoted(v.role));
        Step(p, Returned([NewMessage(chatId, if w.SaveFails(p) then DefaultError else Authorized)]), w.Save(p))
  }

  /** Whether `Handle` asks Discord for the role. */
  predicate RequestsGrant(u: UserRecord) {
    !AlreadyAuthorized(u)
  }

  // ------------------------------------------------------------ properties

  /**
   * A guest is never told it is already authorised, and whatever happens
   * no user loses rank: the role stays, or a guest becomes a member.
   */
  lemma RoleNeverDecreases(discordId: string, u: UserRecord, w: World, chatId: int, refusing: set<string>)
    ensures u.role == Guest ==> RequestsGrant(u)
    ensures
      var s := StartStep(discordId, u, w, chatId, refusing);
      Rank(s.user.role) >= Rank(u.role) &&
      (s.user.role == u.role || (u.role == Guest && s.user.role == Member))
  {
  }

  /**
   * A guest who sends the id Discord printed for it, `strconv.Itoa(n)`, is
   * granted the role and persisted as a member with Discord id `n`.
   */
  lemma GuestBecomesMember(n: int, u: UserRecord, w: World, chatId: int, refusing: set<string>)
    requires MinInt64 <= n <= MaxInt64 && u.role == Guest && Itoa(n) !in refusing
    ensures
      var s := StartStep(Itoa(n), u, w, chatId, refusing);
      s.user == u.(discordId := n, role := Member) && s.world == w.Save(s.user) &&
      (s.reply == Returned([NewMessage(chatId, Authorized)]) <==> !w.SaveFails(s.user))
  {
    AtoiItoa(n);
  }

  /**
   * Once `/start` has authorised a user with a non-zero id, a `/start` on
   * the user as it is left in memory is answered at once, with no grant and
   * no write. That user is also the row handed to the next update only
   * when its save succeeded (`s.world == w.Save(s.user)` in `StartStep`).
   */
  lemma SecondStartIsShortCircuited(discordId: string, u: UserRecord, w: World, chatId: int, refusing: set<string>,
                                    again: string)
    requires u.role != NoRole
    requires RequestsGrant(u) && discordId !in refusing && Atoi(discordId).1 && Atoi(discordId).0 != 0
    ensures
      var s := StartStep(discordId, u, w, chatId, refusing);
      !RequestsGrant(s.user) &&
      StartStep(again, s.user, s.world, chatId, refusing) == Step(s.user, Returned([NewMessage(chatId, Authorized)]), s.world)
  {
  }

  // ------------------------------------------------------------ the handler

  /** `startCommand.Handle`; the command text and the bot are not used. */
  method Handle(command: string, discordId: string, user: User, users: UserStore, proposals: ProposalStore,
                bot: Messenger, discord: Discord, chatId: int)
    returns (ms: seq<Chattable>)
    modifies user, users`rows, discord`granted
    ensures StartStep(discordId, old(user.Record()), old(Snapshot(users, proposals, bot)), chatId, discord.refusing) ==
      Step(user.Record(), Returned(ms), Snapshot(users, proposals, bot))
    ensures discord.granted == old(discord.granted) +
      (if RequestsGrant(old(user.Record())) && discordId !in discord.refusing then [discordId] else [])
  {
    if (user.role == Member || user.role == Seeder) && user.discordId != 0 {
      return [NewMessage(chatId, Authorized)];
    }
    var ok := discord.GuildMemberRoleAdd(discordId);
    if !ok {
      return [NewMessage(chatId, DefaultError)];
    }
    var parsed := Atoi(discordId);
    user.discordId := parsed.0;
    if !parsed.1 {
      return [NewMessage(chatId, DefaultError)];
    }
    if user.role == Guest {
      user.role := Member;
    }
    var r := users.Update(user.Record());
    if r.Failed? {
      return [NewMessage(chatId, DefaultError)];
    }
    ms := [NewMessage(chatId, Authorized)];
  }
}
