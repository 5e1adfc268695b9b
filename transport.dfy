/**
 * The chat and Discord endpoints the bots talk to. Each remembers what it
 * was asked to deliver; which requests they refuse is fixed in advance.
 */
module Transport {
  import opened Wrappers
  import opened Models

  /** What a bot has delivered, and which messages Telegram refuses from it. */
  datatype Outbox = Outbox(sent: seq<Chattable>, refusing: set<Chattable>) {

    /** Whether `Send(m)` succeeds. */
    predicate Accepts(m: Chattable) {
      m !in refusing
    }

    /** The outbox after `Send(m)`: `m` is delivered unless it is refused. */
    function Sent(m: Chattable): (r: Outbox)
      ensures r.refusing == refusing
      ensures r.sent == sent + (if Accepts(m) then [m] else [])
    {
      if Accepts(m) then this.(sent := sent + [m]) else this
    }
  }

  /** A Telegram bot account, as `tgbotapi.NewBotAPI(token)` opens it. */
  class Messenger {
    /** The messages Telegram accepted, in order. */
    var sent: seq<Chattable>
    /** Whether `NewBotAPI` with this bot's token succeeds. */
    const connects: bool
    /** The messages Telegram answers with an error. */
    const refusing: set<Chattable>
    /** What `GetInviteLink` answers; `None` is an error. */
    const inviteLink: Option<string>

    constructor (connects0: bool, refusing0: set<Chattable>, inviteLink0: Option<string>)
      ensures sent == [] && connects == connects0 && refusing == refusing0 && inviteLink == inviteLink0
    {
      sent := [];
      connects := connects0;
      refusing := refusing0;
      inviteLink := inviteLink0;
    }

    function Log(): Outbox
      reads this
    {
      Outbox(sent, refusing)
    }

    /** `bot.Send(m)`: delivers `m` unless Telegram refuses it. */
    method Send(m: Chattable) returns (ok: bool)
      modifies this`sent
      ensures ok <==> m !in refusing
      ensures sent == old(sent) + (if ok then [m] else [])
      ensures Log() == old(Log()).Sent(m) && ok == old(Log()).Accepts(m)
    {
      ok := m !in refusing;
      if ok {
        sent := sent + [m];
      }
    }
  }

  /** A Discord guild role grant for one server and one role. */
  class Discord {
    /** The Discord user ids granted the role, in order. */
    var granted: seq<string>
    /** The user ids for which `GuildMemberRoleAdd` answers an error. */
    const refusing: set<string>

    constructor (refusing0: set<string>)
      ensures granted == [] && refusing == refusing0
    {
      granted := [];
      refusing := refusing0;
    }

    /** `GuildMemberRoleAdd(serverID, discordID, memberRoleID)`. */
    method GuildMemberRoleAdd(discordId: string) returns (ok: bool)
      modifies this`granted
      ensures ok <==> discordId !in refusing
      ensures granted == old(granted) + (if ok then [discordId] else [])
    {
      ok := discordId !in refusing;
      if ok {
        granted := granted + [discordId];
      }
    }
  }
}
