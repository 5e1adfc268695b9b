/**
 * The records the bots and the settlement service share: users, proposals,
 * polls, votes, the per-user chat state and the messages sent to Telegram.
 * Strings that the database stores as enums become datatypes; the empty Go
 * zero value of such a field is a constructor of its own.
 */
module Models {

  /** Points in time, as integers; the unit is immaterial. */
  type Time = int

  /**
   * User roles, lowest first. Stored rows always carry one of the three
   * named roles; `NoRole` is the empty role of a zero `models.User{}`.
   */
  datatype Role = NoRole | Guest | Member | Seeder

  function Rank(r: Role): nat {
    match r
    case NoRole => 0
    case Guest => 1
    case Member => 2
    case Seeder => 3
  }

  /** The role a proposal nominates for; `NoNomineeRole` is Go's empty string. */
  datatype NomineeRole = NoNomineeRole | NomineeMember | NomineeSeeder

  /** Proposal statuses; `NoStatus` is Go's empty string of a fresh draft. */
  datatype Status = NoStatus | Created | Approved | Rejected | NoQuorum

  /** The three final statuses a settlement pass writes. */
  predicate IsSettled(s: Status) {
    s == Approved || s == Rejected || s == NoQuorum
  }

  /** The external poll behind a proposal. */
  datatype Poll = Poll(id: int, chatId: int, pollMessageId: int)

  const NoPoll := Poll(0, 0, 0)

  datatype Proposal = Proposal(
    id: int,
    nominatorId: int,
    nomineeName: string,
    nomineeTelegramNickname: string,
    nomineeRole: NomineeRole,
    comment: string,
    poll: Poll,
    status: Status,
    createdAt: Time,
    finishedAt: Time)

  /** The zero `models.Proposal{}`. */
  const NoProposal := Proposal(0, 0, "", "", NoNomineeRole, "", NoPoll, NoStatus, 0, 0)

  /** Where a user is in a chat conversation. */
  datatype TelegramState = TelegramState(lastCommand: string, lastCommandState: string)

  /** The zero `models.TelegramState{}`. */
  const NoState := TelegramState("", "")

  /** A user row as the database stores it. */
  datatype UserRecord = UserRecord(
    id: int,
    name: string,
    telegramId: int,
    telegramNickname: string,
    discordId: int,
    role: Role,
    backersId: seq<int>,
    proposals: seq<Proposal>,
    tempProposal: Proposal,
    telegramState: TelegramState)

  /** The zero `models.User{}`. */
  const ZeroUser := UserRecord(0, "", 0, "", 0, NoRole, [], [], NoProposal, NoState)

  /**
   * A user loaded into memory; handlers receive a pointer to it and change
   * its fields in place before they persist it.
   */
  class User {
    var id: int
    var name: string
    var telegramId: int
    var telegramNickname: string
    var discordId: int
    var role: Role
    var backersId: seq<int>
    var proposals: seq<Proposal>
    var tempProposal: Proposal
    var telegramState: TelegramState

    constructor Load(r: UserRecord)
      ensures Record() == r
    {
      id := r.id;
      name := r.name;
      telegramId := r.telegramId;
      telegramNickname := r.telegramNickname;
      discordId := r.discordId;
      role := r.role;
      backersId := r.backersId;
      proposals := r.proposals;
      tempProposal := r.tempProposal;
      telegramState := r.telegramState;
    }

    /** The row that persisting this object writes. */
    function Record(): UserRecord
      reads this
    {
      UserRecord(id, name, telegramId, telegramNickname, discordId, role,
                 backersId, proposals, tempProposal, telegramState)
    }
  }

  /** One cast vote as the vote service reports it. */
  datatype Vote = Vote(userId: int, option: string)

  /**
   * The messages the bots send, told apart by what they say; their wording
   * and Markdown are not modelled, only the facts they are built from.
   */
  datatype Text =
    | Empty
    | DefaultError
    | NotCommunityMember
    | Authorized
    | DraftCancelled
    | AskNomineeType
    | UnknownNomineeType(given: string)
    | AskNomineeNickname(role: NomineeRole)
    | AskNickname
    | PendingProposalExists
    | RecentlyRejected
    | AlreadyInCommunity
    | NomineeNotFound
    | CheckNicknameAskName(nickname: string)
    | CheckNicknameAskReason(nickname: string)
    | AskReason
    | ConfirmSummary(role: NomineeRole, name: string, nickname: string, comment: string)
    | ProposalSubmitted
    | ProposeToAdd(nominator: string, nominee: string, comment: string)
    | ProposeToPromote(nominator: string, nominee: string, comment: string)
    | NominationAnnouncement(nominator: string, nominee: string, role: NomineeRole)
    | AskComment(name: string, nickname: string)
    | AskCommentPlain
    | CommentPosted(author: string, comment: string)
    | CommentThanks
    | CommentSent
    | RejectedToNominator(name: string, nickname: string)
    | RejectedToSeeders(name: string, nickname: string)
    | ApprovedToNominator(name: string, nickname: string)
    | InviteForNominee(inviteLink: string)
    | NoQuorumToNominator(name: string, nickname: string)
    | NoQuorumToSeeders(name: string, nickname: string)

  /** A `tgbotapi.Chattable`: nil, or a message to a chat, replying to a message when `replyTo` is not 0. */
  datatype Chattable = Nil | Message(chatId: int, text: Text, replyTo: int)

  /** `tgbotapi.NewMessage`: a message that replies to nothing. */
  function NewMessage(chatId: int, text: Text): Chattable {
    Message(chatId, text, 0)
  }
}
