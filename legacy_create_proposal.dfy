/**
 * The older proposal-creation conversation (the first bot's command). It
 * walks the same states as the current one, but matches the type answer
 * exactly against the capitalised role names, sends every nominee through
 * the name step, refuses any nickname that already has a user row or an
 * approved proposal, and clears the draft only after a submission that
 * fully succeeded.
 */
module LegacyCreateProposal {
  import opened Wrappers
  import opened Models
  import opened GoStrings
  import opened Repositories
  import opened VoteServices
  import opened Transport
  import opened Conversation
  import CreateProposal

  const CommandName := CreateProposal.CommandName
  const WaitingForType := CreateProposal.WaitingForType
  const WaitingForNickname := CreateProposal.WaitingForNickname
  const WaitingForName := CreateProposal.WaitingForName
  const WaitingForReason := CreateProposal.WaitingForReason
  const WaitingForConfirm := CreateProposal.WaitingForConfirm
  const ConfirmNo := CreateProposal.ConfirmNo

  /** `models.UserRoleMember.CapitalizedString()` and the seeder's. */
  const TypeMember := "Member"
  const TypeSeeder := "Seeder"

  /** The nominee role an answer names: exactly "Member" or "Seeder". */
  function NomineeType(answer: string): (r: Option<NomineeRole>)
    ensures r == Some(NomineeMember) <==> answer == TypeMember
    ensures r == Some(NomineeSeeder) <==> answer == TypeSeeder
    ensures r.Some? ==> r.value != NoNomineeRole
  {
    if answer == TypeMember then Some(NomineeMember)
    else if answer == TypeSeeder then Some(NomineeSeeder)
    else None
  }

  /** Unlike the current bot, a differently-cased answer is refused. */
  lemma TypeIsExact()
    ensures NomineeType("member") == None && NomineeType("SEEDER") == None
    ensures CreateProposal.NomineeType("Member") == Some(NomineeMember)
  {
    assert ToLower("Member") == "member";
  }

  /** A latest proposal that blocks a new one: pending, approved, or rejected within the cooldown. */
  predicate Blocks(latest: Proposal, cooldownStart: Time) {
    latest.status == Created || latest.status == Approved ||
    (latest.status == Rejected && cooldownStart <= latest.createdAt)
  }

  /** The nickname checks of the older bot, in order; `None` accepts. */
  function Refusal(history: Option<seq<Proposal>>, found: Lookup<UserRecord>, cooldownStart: Time): Option<Text> {
    if history.None? then Some(DefaultError)
    else if |history.value| > 0 && CreateProposal.Latest(history.value).status == Created then Some(PendingProposalExists)
    else if |history.value| > 0 && CreateProposal.Latest(history.value).status == Approved then Some(AlreadyInCommunity)
    else if |history.value| > 0 && CreateProposal.Latest(history.value).status == Rejected &&
            !(CreateProposal.Latest(history.value).createdAt < cooldownStart) then Some(RecentlyRejected)
    else
      match found
      case Failed => Some(DefaultError)
      case Found(_) => Some(AlreadyInCommunity)
      case Missing => None
  }

  /** A nickname is accepted exactly when nothing blocks it and no user has it. */
  lemma AcceptedIff(history: Option<seq<Proposal>>, found: Lookup<UserRecord>, cooldownStart: Time)
    ensures Refusal(history, found, cooldownStart).None? <==>
      history.Some? && found.Missing? &&
      (|history.value| > 0 ==> !Blocks(CreateProposal.Latest(history.value), cooldownStart))
  {
  }

  /**
   * The older rule is the stricter one: whatever it accepts for a member
   * nominee, the current rule accepts too.
   */
  lemma StricterThanCurrent(history: Option<seq<Proposal>>, found: Lookup<UserRecord>, cooldownStart: Time)
    ensures Refusal(history, found, cooldownStart).None? ==>
      CreateProposal.Refusal(history, found, NomineeMember, cooldownStart).None?
  {
  }

  /** `handleCreateProposalCommand`. */
  function CommandStep(u: UserRecord, w: World, chatId: int): (s: Step<Chattable>)
    ensures s.user.tempProposal.nominatorId == u.id
    ensures u.role == Member ==>
      s.user == u.(tempProposal := NoProposal.(nominatorId := u.id, nomineeRole := NomineeMember),
                   telegramState := u.telegramState.(lastCommandState := WaitingForNickname)) &&
      s.reply == Returned(NewMessage(chatId, AskNickname)) && s.world == w.Save(s.user)
    ensures u.role == Seeder ==>
      s.user == u.(tempProposal := NoProposal.(nominatorId := u.id),
                   telegramState := u.telegramState.(lastCommandState := WaitingForType)) &&
      s.reply == Returned(NewMessage(chatId, AskNomineeType)) && s.world == w.Save(s.user)
    ensures u.role != Member && u.role != Seeder ==>
      s.user == u.(tempProposal := NoProposal.(nominatorId := u.id)) && s.reply == Returned(Nil) && s.world == w
  {
    var started := u.(tempProposal := NoProposal.(nominatorId := u.id));
    match u.role
    case Member => TypeStep(TypeMember, started, w, chatId)
    case Seeder =>
      var v := WithState(started, WaitingForType);
      Step(v, Returned(NewMessage(chatId, AskNomineeType)), w.Save(v))
    case _ => Step(started, Returned(Nil), w)
  }

  /** `handleWaitingForTypeState`: an unknown type is answered and changes nothing. */
  function TypeStep(answer: string, u: UserRecord, w: World, chatId: int): (s: Step<Chattable>)
    ensures NomineeType(answer).None? ==>
      s == Step(u, Returned(NewMessage(chatId, UnknownNomineeType(answer))), w)
    ensures NomineeType(answer).Some? ==>
      s.user == WithState(u.(tempProposal := u.tempProposal.(nomineeRole := NomineeType(answer).value)), WaitingForNickname) &&
      s.world == w.Save(s.user)
  {
    match NomineeType(answer)
    case None => Step(u, Returned(NewMessage(chatId, UnknownNomineeType(answer))), w)
    case Some(role) =>
      var v := WithState(u.(tempProposal := u.tempProposal.(nomineeRole := role)), WaitingForNickname);
      Step(v, Returned(NewMessage(chatId, AskNickname)), w.Save(v))
  }

  /** `handleWaitingForNicknameState`: an accepted nickname always leads to the name step. */
  function NicknameStep(answer: string, u: UserRecord, w: World, chatId: int, cooldownStart: Time): (s: Step<Chattable>)
    ensures var nickname := TrimPrefix(answer, "@");
      var refusal := Refusal(w.proposals.ByNomineeNickname(nickname), w.users.ByNickname(nickname), cooldownStart);
      (refusal.Some? ==> s == Step(u, Returned(NewMessage(chatId, refusal.value)), w)) &&
      (refusal.None? ==>
        s.user == WithState(u.(tempProposal := u.tempProposal.(nomineeTelegramNickname := nickname)), WaitingForName) &&
        s.world == w.Save(s.user))
  {
    var nickname := TrimPrefix(answer, "@");
    match Refusal(w.proposals.ByNomineeNickname(nickname), w.users.ByNickname(nickname), cooldownStart)
    case Some(text) => Step(u, Returned(NewMessage(chatId, text)), w)
    case None =>
      var v := WithState(u.(tempProposal := u.tempProposal.(nomineeTelegramNickname := nickname)), WaitingForName);
      Step(v, Returned(NewMessage(chatId, CheckNicknameAskName(nickname))), w.Save(v))
  }

  /**
   * The submission of `handleWaitingForConfirmState`: poll, proposal and
   * user update must all succeed before the draft and the state are
   * cleared (and saved once more, ignoring the answer).
   */
  function SubmitStep(u: UserRecord, w: World, chatId: int, clock: Clock, service: VoteService): (s: Step<Chattable>)
  {
    var d := u.tempProposal;
    match service.CreatePoll(PollRequest(d.nomineeName, ProposeToAdd(u.telegramNickname, d.nomineeTelegramNickname, d.comment), clock.pollDue))
    case None => Step(u, Returned(NewMessage(chatId, DefaultError)), w)
    case Some(poll) =>
      var dated := CreateProposal.Dated(d, poll, clock);
      var v := u.(tempProposal := dated);
      match w.proposals.CreateAnswer(dated)
      case Found(row) =>
        var filed := v.(proposals := v.proposals + [row], tempProposal := row);
        var w1 := w.(proposals := w.proposals.Created(dated));
        if w1.SaveFails(filed) then Step(filed, Returned(NewMessage(chatId, DefaultError)), w1.Save(filed))
        else
          var cleared := Reset(filed);
          Step(cleared, Returned(NewMessage(chatId, ProposalSubmitted)), w1.Save(filed).Save(cleared))
      case _ => Step(v, Returned(NewMessage(chatId, DefaultError)), w)
  }

  /** `handleWaitingForConfirmState`: "Нет, начать заново" starts over; any other answer submits. */
  function ConfirmStep(answer: string, u: UserRecord, w: World, chatId: int, clock: Clock, service: VoteService): (s: Step<Chattable>)
  {
    if answer == ConfirmNo then
      var v := u.(tempProposal := NoProposal, telegramState := TelegramState(CommandName, ""));
      CommandStep(v, w.Save(v), chatId)
    else SubmitStep(u, w, chatId, clock, service)
  }

  /** `Handle`: the command starts over; other text answers the current step. */
  function HandleStep(command: string, u: UserRecord, w: World, chatId: int, clock: Clock, service: VoteService): (s: Step<seq<Chattable>>)
    ensures s.reply.Returned? && |s.reply.value| == 1
    ensures (command != CommandName && u.telegramState.lastCommandState !in
               {WaitingForType, WaitingForNickname, WaitingForName, WaitingForReason, WaitingForConfirm}) ==>
      s == Step(u, Returned([NewMessage(chatId, DefaultError)]), w)
  {
    var state := u.telegramState.lastCommandState;
    if command == CommandName then Listed(CommandStep(u, w, chatId))
    else if state == WaitingForType then Listed(TypeStep(command, u, w, chatId))
    else if state == WaitingForNickname then Listed(NicknameStep(command, u, w, chatId, clock.cooldownStart))
    else if state == WaitingForName then Listed(CreateProposal.NameStep(command, u, w, chatId))
    else if state == WaitingForReason then Listed(CreateProposal.ReasonStep(command, u, w, chatId))
    else if state == WaitingForConfirm then Listed(ConfirmStep(command, u, w, chatId, clock, service))
    else Step(u, Returned([NewMessage(chatId, DefaultError)]), w)
  }

  /**
   * "Нет, начать заново" starts the proposal over: no poll and no proposal
   * row; the cleared user is saved and the command's first step runs again
   * on a fresh draft by the same nominator.
   */
  lemma NoRestarts(u: UserRecord, w: World, chatId: int, clock: Clock, service: VoteService)
    requires u.telegramState.lastCommandState == WaitingForConfirm
    ensures var s := HandleStep(ConfirmNo, u, w, chatId, clock, service);
      var v := u.(tempProposal := NoProposal, telegramState := TelegramState(CommandName, ""));
      s == Listed(CommandStep(v, w.Save(v), chatId)) &&
      s.world.proposals == w.proposals && s.world.outbox == w.outbox &&
      s.user.tempProposal.nominatorId == u.id && s.user.telegramState.lastCommand == CommandName &&
      (u.role == Member ==>
        s.user.tempProposal == NoProposal.(nominatorId := u.id, nomineeRole := NomineeMember) &&
        s.user.telegramState.lastCommandState == WaitingForNickname) &&
      (u.role == Seeder ==>
        s.user.tempProposal == NoProposal.(nominatorId := u.id) &&
        s.user.telegramState.lastCommandState == WaitingForType)
  {
  }

  /**
   * A submitted answer ends the conversation exactly when the poll, the
   * proposal and the user update all succeed; after any failure the user
   * is still waiting for confirmation.
   */
  lemma ClearedOnlyOnSuccess(answer: string, u: UserRecord, w: World, chatId: int, clock: Clock, service: VoteService)
    requires answer != ConfirmNo && u.telegramState.lastCommandState == WaitingForConfirm
    ensures var s := ConfirmStep(answer, u, w, chatId, clock, service);
      var d := u.tempProposal;
      var poll := service.CreatePoll(PollRequest(d.nomineeName, ProposeToAdd(u.telegramNickname, d.nomineeTelegramNickname, d.comment), clock.pollDue));
      (s.user.telegramState == NoState <==>
        poll.Some? && ProposalCreate(CreateProposal.Dated(d, poll.value, clock)) !in w.proposals.failing &&
        !w.(proposals := w.proposals.Created(CreateProposal.Dated(d, poll.value, clock))).SaveFails(
          u.(tempProposal := Inserted(CreateProposal.Dated(d, poll.value, clock), w.proposals.nextId),
             proposals := u.proposals + [Inserted(CreateProposal.Dated(d, poll.value, clock), w.proposals.nextId)]))) &&
      (s.user.telegramState != NoState ==> s.user.telegramState == u.telegramState)
  {
  }

  // ------------------------------------------------------------ methods

  /** `handleCreateProposalCommand`. */
  method HandleCreateProposalCommand(user: User, users: UserStore, proposals: ProposalStore, bot: Messenger, chatId: int)
    returns (m: Chattable)
    modifies user, users`rows
    ensures CommandStep(old(user.Record()), old(Snapshot(users, proposals, bot)), chatId) ==
      Step(user.Record(), Returned(m), Snapshot(users, proposals, bot))
  {
    user.tempProposal := NoProposal.(nominatorId := user.id);
    match user.role
    case Member =>
      m := HandleWaitingForTypeState(TypeMember, user, users, proposals, bot, chatId);
    case Seeder =>
      m := NewMessage(chatId, AskNomineeType);
      user.telegramState := user.telegramState.(lastCommandState := WaitingForType);
      var _ := UpdateUser(user, users);
    case _ =>
      m := Nil;
  }

  /** `handleWaitingForTypeState`. */
  method HandleWaitingForTypeState(answer: string, user: User, users: UserStore, proposals: ProposalStore, bot: Messenger, chatId: int)
    returns (m: Chattable)
    modifies user, users`rows
    ensures TypeStep(answer, old(user.Record()), old(Snapshot(users, proposals, bot)), chatId) ==
      Step(user.Record(), Returned(m), Snapshot(users, proposals, bot))
  {
    m := NewMessage(chatId, AskNickname);
    if answer == TypeMember {
      user.tempProposal := user.tempProposal.(nomineeRole := NomineeMember);
    } else if answer == TypeSeeder {
      user.tempProposal := user.tempProposal.(nomineeRole := NomineeSeeder);
    } else {
      return NewMessage(chatId, UnknownNomineeType(answer));
    }
    user.telegramState := user.telegramState.(lastCommandState := WaitingForNickname);
    var _ := UpdateUser(user, users);
  }

  /** `handleWaitingForNicknameState`. */
  method HandleWaitingForNicknameState(answer: string, user: User, users: UserStore, proposals: ProposalStore, bot: Messenger,
                                       chatId: int, cooldownStart: Time)
    returns (m: Chattable)
    modifies user, users`rows
    ensures NicknameStep(answer, old(user.Record()), old(Snapshot(users, proposals, bot)), chatId, cooldownStart) ==
      Step(user.Record(), Returned(m), Snapshot(users, proposals, bot))
  {
    var nickname := TrimPrefix(answer, "@");
    var history := proposals.Table().ByNomineeNickname(nickname);
    if history.None? {
      return NewMessage(chatId, DefaultError);
    }
    if |history.value| > 0 {
      var latest := CreateProposal.Latest(history.value);
      if latest.status == Created {
        return NewMessage(chatId, PendingProposalExists);
      } else if latest.status == Approved {
        return NewMessage(chatId, AlreadyInCommunity);
      } else if latest.status == Rejected && !(latest.createdAt < cooldownStart) {
        return NewMessage(chatId, RecentlyRejected);
      }
    }
    var found := users.Table().ByNickname(nickname);
    if found.Failed? {
      return NewMessage(chatId, DefaultError);
    } else if found.Found? {
      return NewMessage(chatId, AlreadyInCommunity);
    }
    m := NewMessage(chatId, CheckNicknameAskName(nickname));
    user.tempProposal := user.tempProposal.(nomineeTelegramNickname := nickname);
    user.telegramState := user.telegramState.(lastCommandState := WaitingForName);
    var _ := UpdateUser(user, users);
  }

  /** `handleWaitingForConfirmState`. */
  method HandleWaitingForConfirmState(answer: string, user: User, users: UserStore, proposals: ProposalStore, bot: Messenger,
                                      chatId: int, clock: Clock, service: VoteService)
    returns (m: Chattable)
    modifies user, users`rows, proposals`rows, proposals`nextId
    ensures ConfirmStep(answer, old(user.Record()), old(Snapshot(users, proposals, bot)), chatId, clock, service) ==
      Step(user.Record(), Returned(m), Snapshot(users, proposals, bot))
  {
    if answer == ConfirmNo {
      user.tempProposal := NoProposal;
      user.telegramState := TelegramState(CommandName, "");
      var _ := UpdateUser(user, users);
      m := HandleCreateProposalCommand(user, users, proposals, bot, chatId);
      return;
    }
    var d := user.tempProposal;
    var poll := service.CreatePoll(PollRequest(d.nomineeName, ProposeToAdd(user.telegramNickname, d.nomineeTelegramNickname, d.comment), clock.pollDue));
    if poll.None? {
      return NewMessage(chatId, DefaultError);
    }
    user.tempProposal := d.(createdAt := clock.now, finishedAt := clock.votingEnds);
    if poll.value != NoPoll {
      user.tempProposal := user.tempProposal.(poll := poll.value);
    }
    var created := proposals.Create(user.tempProposal);
    if !created.Found? {
      return NewMessage(chatId, DefaultError);
    }
    user.tempProposal := created.value;
    user.proposals := user.proposals + [created.value];
    var ok := UpdateUser(user, users);
    if !ok {
      return NewMessage(chatId, DefaultError);
    }
    m := NewMessage(chatId, ProposalSubmitted);
    user.tempProposal := NoProposal;
    user.telegramState := NoState;
    var _ := UpdateUser(user, users);
  }

  /** `Handle`. */
  method Handle(command: string, user: User, users: UserStore, proposals: ProposalStore, bot: Messenger,
                chatId: int, clock: Clock, service: VoteService)
    returns (ms: seq<Chattable>)
    modifies user, users`rows, proposals`rows, proposals`nextId
    ensures HandleStep(command, old(user.Record()), old(Snapshot(users, proposals, bot)), chatId, clock, service) ==
      Step(user.Record(), Returned(ms), Snapshot(users, proposals, bot))
  {
    var m: Chattable;
    var state := user.telegramState.lastCommandState;
    if command == CommandName {
      m := HandleCreateProposalCommand(user, users, proposals, bot, chatId);
    } else if state == WaitingForType {
      m := HandleWaitingForTypeState(command, user, users, proposals, bot, chatId);
    } else if state == WaitingForNickname {
      m := HandleWaitingForNicknameState(command, user, users, proposals, bot, chatId, clock.cooldownStart);
    } else if state == WaitingForName {
      m := CreateProposal.HandleWaitingForNameState(command, user, users, proposals, bot, chatId);
    } else if state == WaitingForReason {
      m := CreateProposal.HandleWaitingForReasonState(command, user, users, proposals, bot, chatId);
    } else if state == WaitingForConfirm {
      m := HandleWaitingForConfirmState(command, user, users, proposals, bot, chatId, clock, service);
    } else {
      m := NewMessage(chatId, DefaultError);
    }
    ms := [m];
  }
}
