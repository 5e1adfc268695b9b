/**
 * The proposal-creation conversation of the access governance bot. A
 * member or seeder answers one question per message; each answer moves
 * `TelegramState.LastCommandState` one step on and fills in one field of
 * the draft kept in `TempProposal`, which is persisted after every step:
 *
 *   type -> nickname -> name (member nominee) -> reason -> confirm
 *
 * Each handler is a method on the in-memory `User` and the stores, and is
 * specified by a function from the user and the `World` it finds to the
 * `Step` it takes.
 */
module CreateProposal {
  import opened Wrappers
  import opened Models
  import opened GoStrings
  import opened Repositories
  import opened VoteServices
  import opened Transport
  import opened Conversation

  const CommandName := "create_proposal"

  const WaitingForType := "waiting_for_type"
  const WaitingForNickname := "waiting_for_nickname"
  const WaitingForName := "waiting_for_name"
  const WaitingForReason := "waiting_for_reason"
  const WaitingForConfirm := "waiting_for_confirm"

  /** `models.UserRoleMember.String()` and `models.UserRoleSeeder.String()`. */
  const TypeMember := "member"
  const TypeSeeder := "seeder"

  const ConfirmYes := "Да"
  const ConfirmNo := "Нет, начать заново"

  function Latest(history: seq<Proposal>): Proposal
    requires |history| > 0
  {
    history[|history| - 1]
  }

  // ------------------------------------------------------------ the type

  /** The nominee role an answer names: "member" or "seeder" in any case. */
  function NomineeType(answer: string): (r: Option<NomineeRole>)
    ensures r == Some(NomineeMember) <==> ToLower(answer) == TypeMember
    ensures r == Some(NomineeSeeder) <==> ToLower(answer) == TypeSeeder
    ensures r.Some? ==> r.value != NoNomineeRole
  {
    var lowered := ToLower(answer);
    if lowered == TypeMember then Some(NomineeMember)
    else if lowered == TypeSeeder then Some(NomineeSeeder)
    else None
  }

  /** The type answer is read without regard to case. */
  lemma {:induction false} TypeIgnoresCase(answer: string)
    ensures NomineeType(ToLower(answer)) == NomineeType(answer)
  {
    LowerIdempotent(answer);
  }

  lemma TypeExamples()
    ensures NomineeType("member") == Some(NomineeMember)
    ensures NomineeType("Seeder") == Some(NomineeSeeder)
    ensures NomineeType("Member") == Some(NomineeMember)
    ensures NomineeType("guest") == None
    ensures NomineeType("") == None
  {
    assert ToLower("Seeder") == "seeder";
    assert ToLower("Member") == "member";
    assert ToLower("guest") == "guest";
  }

  // -------------------------------------------------------- eligibility

  /** A latest proposal that blocks a new one: still pending, or rejected within the cooldown. */
  predicate Blocks(latest: Proposal, cooldownStart: Time) {
    latest.status == Created || (latest.status == Rejected && cooldownStart <= latest.createdAt)
  }

  /** An existing user who cannot be nominated for `role`. */
  predicate AlreadyIn(nominee: UserRecord, role: NomineeRole) {
    nominee.role == Seeder || (nominee.role == Member && role == NomineeMember)
  }

  /**
   * The checks on a nickname, in the order the handler makes them: the
   * nominee's proposals (oldest first), then the user with that nickname.
   * `None` accepts it; otherwise the refusal's text.
   */
  function Refusal(history: Option<seq<Proposal>>, found: Lookup<UserRecord>, role: NomineeRole, cooldownStart: Time): Option<Text> {
    if history.None? then Some(DefaultError)
    else if |history.value| > 0 && Latest(history.value).status == Created then Some(PendingProposalExists)
    else if |history.value| > 0 && Latest(history.value).status == Rejected &&
            !(Latest(history.value).createdAt < cooldownStart) then Some(RecentlyRejected)
    else
      match found
      case Failed => Some(DefaultError)
      case Found(nominee) =>
        if (nominee.role == Member && role == NomineeMember) || nominee.role == Seeder then Some(AlreadyInCommunity)
        else None
      case Missing => if role == NomineeSeeder then Some(NomineeNotFound) else None
  }

  /**
   * A nickname is accepted exactly when both lookups succeed, its latest
   * proposal does not block, the user with it (if any) is not already in
   * the community as the nominated role, and a seeder nominee exists.
   */
  lemma AcceptedIff(history: Option<seq<Proposal>>, found: Lookup<UserRecord>, role: NomineeRole, cooldownStart: Time)
    ensures Refusal(history, found, role, cooldownStart).None? <==>
      history.Some? && !found.Failed? &&
      (|history.value| > 0 ==> !Blocks(Latest(history.value), cooldownStart)) &&
      (found.Found? ==> !AlreadyIn(found.value, role)) &&
      (found.Missing? ==> role != NomineeSeeder)
  {
  }

  /** Only the latest proposal matters: an approved one, or an old rejection, blocks nothing. */
  lemma OnlyLatestBlocks(history: seq<Proposal>, found: Lookup<UserRecord>, role: NomineeRole, cooldownStart: Time)
    requires |history| > 0 && !Blocks(Latest(history), cooldownStart)
    ensures Refusal(Some(history), found, role, cooldownStart) == Refusal(Some([]), found, role, cooldownStart)
  {
  }

  /** A guest may be nominated for either role; a member may be nominated only to seeder. */
  lemma WhoMayBeNominated(nominee: UserRecord, role: NomineeRole, cooldownStart: Time)
    ensures nominee.role == Guest ==> Refusal(Some([]), Found(nominee), role, cooldownStart).None?
    ensures nominee.role == Member ==>
      (Refusal(Some([]), Found(nominee), role, cooldownStart).None? <==> role != NomineeMember)
    ensures nominee.role == Seeder ==> Refusal(Some([]), Found(nominee), role, cooldownStart) == Some(AlreadyInCommunity)
  {
  }

  /**
   * Read against the table: a pending proposal that is strictly the newest
   * for its nickname refuses the nickname, whatever the user lookup says.
   */
  lemma {:induction false} NewestPendingRefuses(t: ProposalTable, p: Proposal, found: Lookup<UserRecord>, role: NomineeRole, cooldownStart: Time)
    requires ProposalsByNickname(p.nomineeTelegramNickname) !in t.failing
    requires p in t.rows && p.status == Created
    requires forall q :: q in t.rows && q.nomineeTelegramNickname == p.nomineeTelegramNickname && q != p ==>
      q.createdAt < p.createdAt
    ensures Refusal(t.ByNomineeNickname(p.nomineeTelegramNickname), found, role, cooldownStart) == Some(PendingProposalExists)
  {
    var history := t.ByNomineeNickname(p.nomineeTelegramNickname).value;
    assert p in history;
    var k :| 0 <= k < |history| && history[k] == p;
    var n := |history| - 1;
    assert history[n] in history;
    if k < n {
      assert history[k].createdAt <= history[n].createdAt;
    }
    assert Latest(history) == p;
  }

  // -------------------------------------------------------------- steps

  /** `handleCreateProposalCommand`: a started draft whose nominator is the user. */
  function CommandStep(u: UserRecord, w: World, chatId: int): (s: Step<Chattable>)
    ensures s.user.tempProposal.nominatorId == u.id
    ensures u.role == Member ==>
      s.user == u.(tempProposal := NoProposal.(nominatorId := u.id, nomineeRole := NomineeMember),
                   telegramState := u.telegramState.(lastCommandState := WaitingForNickname)) &&
      s.reply == Returned(NewMessage(chatId, AskNomineeNickname(NomineeMember))) && s.world == w.Save(s.user)
    ensures u.role == Seeder ==>
      s.user == u.(tempProposal := NoProposal.(nominatorId := u.id),
                   telegramState := u.telegramState.(lastCommandState := WaitingForType)) &&
      s.reply == Returned(NewMessage(chatId, AskNomineeType)) && s.world == w.Save(s.user)
    ensures u.role != Member && u.role != Seeder ==>
      s.user == u.(tempProposal := NoProposal.(nominatorId := u.id)) && s.reply == Returned(Nil) && s.world == w
  {
    var started := u.(tempProposal := NoProposal.(nominatorId := u.id));
    match u.role
    case Member =>
      assert ToLower(TypeMember) == TypeMember;
      TypeStep(TypeMember, started, w, chatId)
    case Seeder =>
      var v := WithState(started, WaitingForType);
      Step(v, Returned(NewMessage(chatId, AskNomineeType)), w.Save(v))
    case _ => Step(started, Returned(Nil), w)
  }

  /** `handleWaitingForTypeState`: an unknown type is answered and changes nothing. */
  function TypeStep(answer: string, u: UserRecord, w: World, chatId: int): (s: Step<Chattable>)
    ensures NomineeType(answer).None? ==>
      s == Step(u, Returned(NewMessage(chatId, UnknownNomineeType(answer))), w)
    ensures NomineeType(answer).Some? ==>
      s.user == WithState(u.(tempProposal := u.tempProposal.(nomineeRole := NomineeType(answer).value)), WaitingForNickname) &&
      s.world == w.Save(s.user)
  {
    match NomineeType(answer)
    case None => Step(u, Returned(NewMessage(chatId, UnknownNomineeType(answer))), w)
    case Some(role) =>
      var v := WithState(u.(tempProposal := u.tempProposal.(nomineeRole := role)), WaitingForNickname);
      Step(v, Returned(NewMessage(chatId, AskNomineeNickname(role))), w.Save(v))
  }

  /** The state a nickname leads to: the name for a member nominee, the reason for a seeder. */
  function AfterNickname(role: NomineeRole, state: string): string {
    match role
    case NomineeMember => WaitingForName
    case NomineeSeeder => WaitingForReason
    case NoNomineeRole => state
  }

  function NicknameReply(role: NomineeRole, nickname: string): Text {
    match role
    case NomineeMember => CheckNicknameAskName(nickname)
    case NomineeSeeder => CheckNicknameAskReason(nickname)
    case NoNomineeRole => Empty
  }

  /**
   * `handleWaitingForNicknameState`: one leading "@" is dropped; a refused
   * nickname is answered and changes nothing; an accepted one is stored.
   */
  function NicknameStep(answer: string, u: UserRecord, w: World, chatId: int, cooldownStart: Time): (s: Step<Chattable>)
    ensures var nickname := TrimPrefix(answer, "@");
      var refusal := Refusal(w.proposals.ByNomineeNickname(nickname), w.users.ByNickname(nickname),
                             u.tempProposal.nomineeRole, cooldownStart);
      (refusal.Some? ==> s == Step(u, Returned(NewMessage(chatId, refusal.value)), w)) &&
      (refusal.None? ==>
        s.user.tempProposal == u.tempProposal.(nomineeTelegramNickname := nickname) &&
        s.user.telegramState.lastCommandState == AfterNickname(u.tempProposal.nomineeRole, u.telegramState.lastCommandState) &&
        s.world == w.Save(s.user))
    ensures s.user.(tempProposal := u.tempProposal, telegramState := u.telegramState) == u
  {
    var nickname := TrimPrefix(answer, "@");
    var role := u.tempProposal.nomineeRole;
    match Refusal(w.proposals.ByNomineeNickname(nickname), w.users.ByNickname(nickname), role, cooldownStart)
    case Some(text) => Step(u, Returned(NewMessage(chatId, text)), w)
    case None =>
      var v := WithState(u, AfterNickname(role, u.telegramState.lastCommandState))
                 .(tempProposal := u.tempProposal.(nomineeTelegramNickname := nickname));
      Step(v, Returned(NewMessage(chatId, NicknameReply(role, nickname))), w.Save(v))
  }

  /** `handleWaitingForNameState`. */
  function NameStep(answer: string, u: UserRecord, w: World, chatId: int): (s: Step<Chattable>)
    ensures s.user == WithState(u.(tempProposal := u.tempProposal.(nomineeName := answer)), WaitingForReason)
    ensures s.world == w.Save(s.user)
    ensures s.reply == Returned(NewMessage(chatId, AskReason))
  {
    var v := WithState(u.(tempProposal := u.tempProposal.(nomineeName := answer)), WaitingForReason);
    Step(v, Returned(NewMessage(chatId, AskReason)), w.Save(v))
  }

  /** `handleWaitingForReasonState`: the reply sums up the draft for confirmation. */
  function ReasonStep(answer: string, u: UserRecord, w: World, chatId: int): (s: Step<Chattable>)
    ensures s.user == WithState(u.(tempProposal := u.tempProposal.(comment := answer)), WaitingForConfirm)
    ensures s.world == w.Save(s.user)
    ensures s.reply == Returned(NewMessage(chatId, ConfirmSummary(u.tempProposal.nomineeRole,
      u.tempProposal.nomineeName, u.tempProposal.nomineeTelegramNickname, answer)))
  {
    var d := u.tempProposal.(comment := answer);
    var v := WithState(u.(tempProposal := d), WaitingForConfirm);
    Step(v, Returned(NewMessage(chatId, ConfirmSummary(d.nomineeRole, d.nomineeName, d.nomineeTelegramNickname, d.comment))), w.Save(v))
  }

  /** The poll's description: who proposes to add, or to promote, whom. */
  function PollDescription(nominator: string, d: Proposal): Text {
    match d.nomineeRole
    case NomineeMember => ProposeToAdd(nominator, d.nomineeTelegramNickname, d.comment)
    case NomineeSeeder => ProposeToPromote(nominator, d.nomineeTelegramNickname, d.comment)
    case NoNomineeRole => Empty
  }

  /** The draft as submitted: dated, and carrying the poll unless the service answered the zero poll. */
  function Dated(d: Proposal, poll: Poll, clock: Clock): Proposal {
    d.(createdAt := clock.now, finishedAt := clock.votingEnds, poll := if poll != NoPoll then poll else d.poll)
  }

  /**
   * The submission half of `handleWaitingForConfirmState`: open the poll,
   * file the dated draft, keep the filed row in memory and persist the
   * user. Each failure is answered with the default error and stops there.
   */
  function SubmitStep(u: UserRecord, w: World, chatId: int, clock: Clock, service: VoteService): (s: Step<Chattable>)
  {
    var d := u.tempProposal;
    match service.CreatePoll(PollRequest(d.nomineeName, PollDescription(u.telegramNickname, d), clock.pollDue))
    case None => Step(u, Returned(NewMessage(chatId, DefaultError)), w)
    case Some(poll) =>
      var dated := Dated(d, poll, clock);
      var v := u.(tempProposal := dated);
      match w.proposals.CreateAnswer(dated)
      case Found(row) =>
        var filed := v.(tempProposal := row, proposals := v.proposals + [row]);
        var w1 := w.(proposals := w.proposals.Created(dated));
        Step(filed, Returned(NewMessage(chatId, if w1.SaveFails(filed) then DefaultError else ProposalSubmitted)), w1.Save(filed))
      case _ => Step(v, Returned(NewMessage(chatId, DefaultError)), w)
  }

  /**
   * `handleWaitingForConfirmState`: "Нет, начать заново" starts over with
   * a started draft; any other answer submits. A seeder nominee's name is
   * looked up first, and a nickname with no row panics on `nominee.Name`.
   */
  function ConfirmStep(answer: string, u: UserRecord, w: World, chatId: int, clock: Clock, service: VoteService): (s: Step<Chattable>)
  {
    if answer == ConfirmNo then
      var v := u.(tempProposal := NoProposal, telegramState := TelegramState(CommandName, ""));
      CommandStep(v, w.Save(v), chatId)
    else if u.tempProposal.nomineeRole == NomineeSeeder then
      match w.users.ByNickname(u.tempProposal.nomineeTelegramNickname)
      case Failed => Step(u, Returned(NewMessage(chatId, DefaultError)), w)
      case Missing => Step(u, Panicked, w)
      case Found(nominee) =>
        SubmitStep(u.(tempProposal := u.tempProposal.(nomineeName := nominee.name)), w, chatId, clock, service)
    else
      SubmitStep(u, w, chatId, clock, service)
  }

  /** The announcement to the members' chat after "Да". */
  function Announcement(u: UserRecord): Text {
    match u.tempProposal.nomineeRole
    case NoNomineeRole => Empty
    case _ => NominationAnnouncement(u.telegramNickname, u.tempProposal.nomineeTelegramNickname, u.tempProposal.nomineeRole)
  }

  /**
   * `Handle`: the command itself starts over; any other text is the answer
   * to the step the user is waiting in. After the confirm step, an answer
   * of exactly "Да" announces the nominee and clears the draft and the
   * state, whatever the step did.
   */
  function HandleStep(command: string, u: UserRecord, w: World, chatId: int, clock: Clock,
                      service: VoteService, membersChatId: int): (s: Step<seq<Chattable>>)
    ensures s.reply.Returned? ==> |s.reply.value| == 1
    ensures (command != CommandName && u.telegramState.lastCommandState !in
               {WaitingForType, WaitingForNickname, WaitingForName, WaitingForReason, WaitingForConfirm}) ==>
      s == Step(u, Returned([NewMessage(chatId, DefaultError)]), w)
  {
    var state := u.telegramState.lastCommandState;
    if command == CommandName then Listed(CommandStep(u, w, chatId))
    else if state == WaitingForType then Listed(TypeStep(command, u, w, chatId))
    else if state == WaitingForNickname then Listed(NicknameStep(command, u, w, chatId, clock.cooldownStart))
    else if state == WaitingForName then Listed(NameStep(command, u, w, chatId))
    else if state == WaitingForReason then Listed(ReasonStep(command, u, w, chatId))
    else if state == WaitingForConfirm then
      var c := ConfirmStep(command, u, w, chatId, clock, service);
      if c.reply.Returned? && command == ConfirmYes then
        var cleared := Reset(c.user);
        var w1 := c.world.Post(NewMessage(membersChatId, Announcement(c.user)));
        Step(cleared, Returned([c.reply.value]), w1.Save(cleared))
      else Listed(c)
    else Step(u, Returned([NewMessage(chatId, DefaultError)]), w)
  }

  // --------------------------------------------------------- properties

  /** "Да" always ends the conversation: the draft and the state are cleared and saved. */
  lemma YesClears(u: UserRecord, w: World, chatId: int, clock: Clock, service: VoteService, membersChatId: int)
    requires u.telegramState.lastCommandState == WaitingForConfirm
    ensures var s := HandleStep(ConfirmYes, u, w, chatId, clock, service, membersChatId);
      s.reply.Returned? ==>
        s.user.tempProposal == NoProposal && s.user.telegramState == NoState &&
        exists w0: World :: s.world == w0.Save(s.user)
  {
    var s := HandleStep(ConfirmYes, u, w, chatId, clock, service, membersChatId);
    if s.reply.Returned? {
      var c := ConfirmStep(ConfirmYes, u, w, chatId, clock, service);
      var w1 := c.world.Post(NewMessage(membersChatId, Announcement(c.user)));
      assert s.world == w1.Save(s.user);
    }
  }

  /**
   * "Нет, начать заново" starts the proposal over: no poll, no proposal
   * row and no announcement; the cleared user is saved and the command's
   * first step runs again on a fresh draft by the same nominator.
   */
  lemma NoRestarts(u: UserRecord, w: World, chatId: int, clock: Clock, service: VoteService, membersChatId: int)
    requires u.telegramState.lastCommandState == WaitingForConfirm
    ensures var s := HandleStep(ConfirmNo, u, w, chatId, clock, service, membersChatId);
      var v := u.(tempProposal := NoProposal, telegramState := TelegramState(CommandName, ""));
      s == Listed(CommandStep(v, w.Save(v), chatId)) &&
      s.world.proposals == w.proposals && s.world.outbox == w.outbox &&
      s.user.tempProposal.nominatorId == u.id && s.user.telegramState.lastCommand == CommandName &&
      (u.role == Member ==>
        s.user.tempProposal == NoProposal.(nominatorId := u.id, nomineeRole := NomineeMember) &&
        s.user.telegramState.lastCommandState == WaitingForNickname) &&
      (u.role == Seeder ==>
        s.user.tempProposal == NoProposal.(nominatorId := u.id) &&
        s.user.telegramState.lastCommandState == WaitingForType)
  {
  }

  /**
   * Any confirm answer but the two buttons submits the member draft as
   * well, yet leaves the user waiting for confirmation with the filed row
   * as the draft: the next such answer files it again.
   */
  lemma OtherAnswerSubmitsWithoutClearing(answer: string, u: UserRecord, w: World, chatId: int, clock: Clock,
                                          service: VoteService, membersChatId: int, poll: Poll)
    requires u.telegramState.lastCommandState == WaitingForConfirm
    requires answer != ConfirmYes && answer != ConfirmNo && answer != CommandName
    requires u.tempProposal.nomineeRole == NomineeMember
    requires service.CreatePoll(PollRequest(u.tempProposal.nomineeName, PollDescription(u.telegramNickname, u.tempProposal), clock.pollDue)) == Some(poll)
    requires ProposalCreate(Dated(u.tempProposal, poll, clock)) !in w.proposals.failing
    ensures var s := HandleStep(answer, u, w, chatId, clock, service, membersChatId);
      s.world.proposals.rows == w.proposals.rows + [Inserted(Dated(u.tempProposal, poll, clock), w.proposals.nextId)] &&
      s.user.telegramState == u.telegramState &&
      s.user.tempProposal == Inserted(Dated(u.tempProposal, poll, clock), w.proposals.nextId)
  {
  }

  /**
   * What a submission files: the nominator's draft with the dates of the
   * clock, the poll unless it is the zero poll, the next key and the
   * status `created`; the row is also appended to the user's proposals.
   */
  lemma SubmissionFiles(u: UserRecord, w: World, chatId: int, clock: Clock, service: VoteService)
    ensures var s := SubmitStep(u, w, chatId, clock, service);
      var d := u.tempProposal;
      var poll := service.CreatePoll(PollRequest(d.nomineeName, PollDescription(u.telegramNickname, d), clock.pollDue));
      |s.world.proposals.rows| == |w.proposals.rows| + (if |s.user.proposals| > |u.proposals| then 1 else 0) &&
      (|s.world.proposals.rows| > |w.proposals.rows| ==>
        var row := s.world.proposals.rows[|w.proposals.rows|];
        poll.Some? && row == s.user.tempProposal && s.user.proposals == u.proposals + [row] &&
        row.id == w.proposals.nextId && row.status == (if d.status == NoStatus then Created else d.status) &&
        row.nominatorId == d.nominatorId && row.nomineeName == d.nomineeName &&
        row.nomineeTelegramNickname == d.nomineeTelegramNickname &&
        row.nomineeRole == d.nomineeRole && row.comment == d.comment &&
        row.createdAt == clock.now && row.finishedAt == clock.votingEnds &&
        row.poll == (if poll.value == NoPoll then d.poll else poll.value))
  {
  }

  // ------------------------------------------------------------ methods

  /** `handleCreateProposalCommand`. */
  method HandleCreateProposalCommand(user: User, users: UserStore, proposals: ProposalStore, bot: Messenger, chatId: int)
    returns (m: Chattable)
    modifies user, users`rows
    ensures CommandStep(old(user.Record()), old(Snapshot(users, proposals, bot)), chatId) ==
      Step(user.Record(), Returned(m), Snapshot(users, proposals, bot))
  {
    user.tempProposal := NoProposal.(nominatorId := user.id);
    match user.role
    case Member =>
      m := HandleWaitingForTypeState(TypeMember, user, users, proposals, bot, chatId);
    case Seeder =>
      m := NewMessage(chatId, AskNomineeType);
      user.telegramState := user.telegramState.(lastCommandState := WaitingForType);
      var _ := UpdateUser(user, users);
    case _ =>
      m := Nil;
  }

  /** `handleWaitingForTypeState`. */
  method HandleWaitingForTypeState(answer: string, user: User, users: UserStore, proposals: ProposalStore, bot: Messenger, chatId: int)
    returns (m: Chattable)
    modifies user, users`rows
    ensures TypeStep(answer, old(user.Record()), old(Snapshot(users, proposals, bot)), chatId) ==
      Step(user.Record(), Returned(m), Snapshot(users, proposals, bot))
  {
    var role := NomineeType(answer);
    if role.None? {
      return NewMessage(chatId, UnknownNomineeType(answer));
    }
    user.tempProposal := user.tempProposal.(nomineeRole := role.value);
    user.telegramState := user.telegramState.(lastCommandState := WaitingForNickname);
    var _ := UpdateUser(user, users);
    m := NewMessage(chatId, AskNomineeNickname(role.value));
  }

  /** `handleWaitingForNicknameState`. */
  method HandleWaitingForNicknameState(answer: string, user: User, users: UserStore, proposals: ProposalStore, bot: Messenger,
                                       chatId: int, cooldownStart: Time)
    returns (m: Chattable)
    modifies user, users`rows
    ensures NicknameStep(answer, old(user.Record()), old(Snapshot(users, proposals, bot)), chatId, cooldownStart) ==
      Step(user.Record(), Returned(m), Snapshot(users, proposals, bot))
  {
    var nickname := TrimPrefix(answer, "@");
    var history := proposals.Table().ByNomineeNickname(nickname);
    if history.None? {
      return NewMessage(chatId, DefaultError);
    }
    if |history.value| > 0 {
      var latest := Latest(history.value);
      if latest.status == Created {
        return NewMessage(chatId, PendingProposalExists);
      } else if latest.status == Rejected && !(latest.createdAt < cooldownStart) {
        return NewMessage(chatId, RecentlyRejected);
      }
    }
    var found := users.Table().ByNickname(nickname);
    match found {
      case Failed =>
        return NewMessage(chatId, DefaultError);
      case Found(nominee) =>
        if (nominee.role == Member && user.tempProposal.nomineeRole == NomineeMember) || nominee.role == Seeder {
          return NewMessage(chatId, AlreadyInCommunity);
        }
      case Missing =>
        if user.tempProposal.nomineeRole == NomineeSeeder {
          return NewMessage(chatId, NomineeNotFound);
        }
    }
    var role := user.tempProposal.nomineeRole;
    user.telegramState := user.telegramState.(lastCommandState := AfterNickname(role, user.telegramState.lastCommandState));
    m := NewMessage(chatId, NicknameReply(role, nickname));
    user.tempProposal := user.tempProposal.(nomineeTelegramNickname := nickname);
    var _ := UpdateUser(user, users);
  }

  /** `handleWaitingForNameState`. */
  method HandleWaitingForNameState(answer: string, user: User, users: UserStore, proposals: ProposalStore, bot: Messenger, chatId: int)
    returns (m: Chattable)
    modifies user, users`rows
    ensures NameStep(answer, old(user.Record()), old(Snapshot(users, proposals, bot)), chatId) ==
      Step(user.Record(), Returned(m), Snapshot(users, proposals, bot))
  {
    m := NewMessage(chatId, AskReason);
    user.tempProposal := user.tempProposal.(nomineeName := answer);
    user.telegramState := user.telegramState.(lastCommandState := WaitingForReason);
    var _ := UpdateUser(user, users);
  }

  /** `handleWaitingForReasonState`. */
  method HandleWaitingForReasonState(answer: string, user: User, users: UserStore, proposals: ProposalStore, bot: Messenger, chatId: int)
    returns (m: Chattable)
    modifies user, users`rows
    ensures ReasonStep(answer, old(user.Record()), old(Snapshot(users, proposals, bot)), chatId) ==
      Step(user.Record(), Returned(m), Snapshot(users, proposals, bot))
  {
    user.tempProposal := user.tempProposal.(comment := answer);
    var d := user.tempProposal;
    m := NewMessage(chatId, ConfirmSummary(d.nomineeRole, d.nomineeName, d.nomineeTelegramNickname, d.comment));
    user.telegramState := user.telegramState.(lastCommandState := WaitingForConfirm);
    var _ := UpdateUser(user, users);
  }

  /** `handleWaitingForConfirmState`. */
  method HandleWaitingForConfirmState(answer: string, user: User, users: UserStore, proposals: ProposalStore, bot: Messenger,
                                      chatId: int, clock: Clock, service: VoteService)
    returns (o: Outcome<Chattable>)
    modifies user, users`rows, proposals`rows, proposals`nextId
    ensures ConfirmStep(answer, old(user.Record()), old(Snapshot(users, proposals, bot)), chatId, clock, service) ==
      Step(user.Record(), o, Snapshot(users, proposals, bot))
  {
    if answer == ConfirmNo {
      user.tempProposal := NoProposal;
      user.telegramState := TelegramState(CommandName, "");
      var _ := UpdateUser(user, users);
      var m := HandleCreateProposalCommand(user, users, proposals, bot, chatId);
      return Returned(m);
    }
    var d := user.tempProposal;
    if d.nomineeRole == NomineeSeeder {
      var nominee := users.Table().ByNickname(d.nomineeTelegramNickname);
      if nominee.Failed? {
        return Returned(NewMessage(chatId, DefaultError));
      }
      if nominee.Missing? {
        return Panicked;
      }
      user.tempProposal := d.(nomineeName := nominee.value.name);
    }
    var m := Submit(user, users, proposals, bot, chatId, clock, service);
    o := Returned(m);
  }

  /** The submission half of `handleWaitingForConfirmState`. */
  method Submit(user: User, users: UserStore, proposals: ProposalStore, bot: Messenger, chatId: int, clock: Clock, service: VoteService)
    returns (m: Chattable)
    modifies user, users`rows, proposals`rows, proposals`nextId
    ensures SubmitStep(old(user.Record()), old(Snapshot(users, proposals, bot)), chatId, clock, service) ==
      Step(user.Record(), Returned(m), Snapshot(users, proposals, bot))
  {
    var d := user.tempProposal;
    var poll := service.CreatePoll(PollRequest(d.nomineeName, PollDescription(user.telegramNickname, d), clock.pollDue));
    if poll.None? {
      return NewMessage(chatId, DefaultError);
    }
    user.tempProposal := d.(createdAt := clock.now, finishedAt := clock.votingEnds);
    if poll.value != NoPoll {
      user.tempProposal := user.tempProposal.(poll := poll.value);
    }
    var created := proposals.Create(user.tempProposal);
    if !created.Found? {
      return NewMessage(chatId, DefaultError);
    }
    user.tempProposal := created.value;
    user.proposals := user.proposals + [created.value];
    var ok := UpdateUser(user, users);
    if !ok {
      return NewMessage(chatId, DefaultError);
    }
    m := NewMessage(chatId, ProposalSubmitted);
  }

  /** `Handle`. */
  method Handle(command: string, user: User, users: UserStore, proposals: ProposalStore, bot: Messenger,
                chatId: int, clock: Clock, service: VoteService, membersChatId: int)
    returns (o: Outcome<seq<Chattable>>)
    modifies user, users`rows, proposals`rows, proposals`nextId, bot`sent
    ensures HandleStep(command, old(user.Record()), old(Snapshot(users, proposals, bot)), chatId, clock, service, membersChatId) ==
      Step(user.Record(), o, Snapshot(users, proposals, bot))
  {
    var m: Chattable;
    if command == CommandName {
      m := HandleCreateProposalCommand(user, users, proposals, bot, chatId);
      return Returned([m]);
    }
    var state := user.telegramState.lastCommandState;
    if state == WaitingForType {
      m := HandleWaitingForTypeState(command, user, users, proposals, bot, chatId);
    } else if state == WaitingForNickname {
      m := HandleWaitingForNicknameState(command, user, users, proposals, bot, chatId, clock.cooldownStart);
    } else if state == WaitingForName {
      m := HandleWaitingForNameState(command, user, users, proposals, bot, chatId);
    } else if state == WaitingForReason {
      m := HandleWaitingForReasonState(command, user, users, proposals, bot, chatId);
    } else if state == WaitingForConfirm {
      var c := HandleWaitingForConfirmState(command, user, users, proposals, bot, chatId, clock, service);
      if c.Panicked? {
        return Panicked;
      }
      m := c.value;
      if command == ConfirmYes {
        var _ := bot.Send(NewMessage(membersChatId, Announcement(user.Record())));
        user.tempProposal := NoProposal;
        user.telegramState := NoState;
        var _ := UpdateUser(user, users);
      }
    } else {
      m := NewMessage(chatId, DefaultError);
    }
    o := Returned([m]);
  }
}
