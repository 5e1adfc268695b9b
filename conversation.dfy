/**
 * What the chat handlers share: the tables and the outbox a handler step
 * acts on, the calendar values it reads, and the call that persists the
 * user it has changed in memory.
 */
module Conversation {
  import opened Wrappers
  import opened Models
  import opened Repositories
  import opened Transport

  /**
   * The calendar values a handler reads, each computed from the clock:
   * `time.Now()`; the start of the renomination cooldown (three months
   * back, or `RenominationPeriodDays` days back in the older bot); the end
   * of voting, `VotingDurationDays` days on; and the poll's due date,
   * 12:00 on the day voting ends.
   */
  datatype Clock = Clock(now: Time, cooldownStart: Time, votingEnds: Time, pollDue: Time)

  /** The repositories and the bot's outbox, as a handler finds or leaves them. */
  datatype World = World(users: UserTable, proposals: ProposalTable, outbox: Outbox) {

    /** After `userRepository.Update(u)`. */
    function Save(u: UserRecord): World {
      this.(users := users.Updated(u))
    }

    /** Whether `userRepository.Update(u)` answers an error. */
    predicate SaveFails(u: UserRecord) {
      UserUpdate(u) in users.failing
    }

    /** After `bot.Send(m)`. */
    function Post(m: Chattable): World {
      this.(outbox := outbox.Sent(m))
    }
  }

  function Snapshot(users: UserStore, proposals: ProposalStore, bot: Messenger): World
    reads users, proposals, bot
  {
    World(users.Table(), proposals.Table(), bot.Log())
  }

  /**
   * One handler call: the user as the handler leaves it in memory, what it
   * returned (or that it panicked), and the world afterwards.
   */
  datatype Step<+R> = Step(user: UserRecord, reply: Outcome<R>, world: World)

  /** The user moved to another step of the conversation it is in. */
  function WithState(u: UserRecord, state: string): UserRecord {
    u.(telegramState := u.telegramState.(lastCommandState := state))
  }

  /** The user with no draft and no conversation under way. */
  function Reset(u: UserRecord): (r: UserRecord)
    ensures r.tempProposal == NoProposal && r.telegramState == NoState
    ensures r.(tempProposal := u.tempProposal, telegramState := u.telegramState) == u
  {
    u.(tempProposal := NoProposal, telegramState := NoState)
  }

  /** The one-message slice `[]tgbotapi.Chattable{m}` a `Handle` wraps its step's reply in. */
  function Listed(s: Step<Chattable>): Step<seq<Chattable>> {
    Step(s.user, if s.reply.Returned? then Returned([s.reply.value]) else Panicked, s.world)
  }

  /**
   * create_proposal's `updateUser`, and the bare `userRepository.Update(user)`
   * of the other handlers: persists the in-memory user and reports whether
   * the call failed; the row it selects again is dropped.
   */
  method UpdateUser(user: User, users: UserStore) returns (ok: bool)
    modifies users`rows
    ensures users.Table() == old(users.Table()).Updated(user.Record())
    ensures ok <==> UserUpdate(user.Record()) !in users.failing
  {
    var r := users.Update(user.Record());
    ok := !r.Failed?;
  }
}
