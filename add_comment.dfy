/**
 * The `add_comment` conversation of the access governance bot: a callback
 * `add_comment:<id>` loads proposal `<id>` into the user's draft, and the
 * next text the user sends is posted, through the vote bot, to that
 * proposal's poll chat as a reply to the poll.
 *
 * In the steps of this module the world's outbox is the vote bot's: the
 * comment is sent through a bot opened with the vote bot's token, and
 * that bot is the only one the handler sends through.
 */
module AddComment {
  import opened Wrappers
  import opened Models
  import opened GoStrings
  import opened Repositories
  import opened Transport
  import opened Conversation

  const CommandName := "add_comment"
  const WaitingForComment := "waiting_for_comment"

  /**
   * The proposal id a callback names: it must split on ':' into exactly two
   * parts, and `parse` (`strconv.ParseInt(_, 0, 64)`) must accept the second.
   */
  function CallbackId(command: string, parse: string -> Option<int>): Option<int> {
    var parts := Split(command, ':');
    if |parts| != 2 then None else parse(parts[1])
  }

  /** The comment as the vote bot posts it: to the poll chat, replying to the poll. */
  function Posting(u: UserRecord, comment: string): Chattable {
    Message(u.tempProposal.poll.chatId, CommentPosted(u.telegramNickname, comment), u.tempProposal.poll.pollMessageId)
  }

  /**
   * `handleAddCommentCommand`, with `ask` the reply that asks for the
   * comment. A malformed callback and a failed lookup are refused with
   * nothing changed; a proposal that does not exist is dereferenced and
   * panics; otherwise the proposal becomes the draft, whatever saving it
   * answers.
   */
  function LoadStep(command: string, u: UserRecord, w: World, chatId: int, parse: string -> Option<int>,
                    ask: Proposal -> Text): (s: Step<Chattable>)
    ensures CallbackId(command, parse).None? ==> s == Step(u, Returned(NewMessage(chatId, DefaultError)), w)
    ensures CallbackId(command, parse).Some? ==>
      var found := w.proposals.ById(CallbackId(command, parse).value);
      (found.Failed? ==> s == Step(u, Returned(NewMessage(chatId, DefaultError)), w)) &&
      (found.Missing? ==> s.reply.Panicked? && s.world == w) &&
      (found.Found? ==>
        s.user.tempProposal == found.value &&
        s.user.telegramState == TelegramState(u.telegramState.lastCommand, WaitingForComment) &&
        s.user.(tempProposal := u.tempProposal, telegramState := u.telegramState) == u &&
        s.world == w.Save(s.user) &&
        s.reply == Returned(NewMessage(chatId, ask(found.value))))
  {
    match CallbackId(command, parse)
    case None => Step(u, Returned(NewMessage(chatId, DefaultError)), w)
    case Some(id) =>
      match w.proposals.ById(id)
      case Failed => Step(u, Returned(NewMessage(chatId, DefaultError)), w)
      case Missing => Step(u, Panicked, w)
      case Found(p) =>
        var v := WithState(u.(tempProposal := p), WaitingForComment);
        Step(v, Returned(NewMessage(chatId, ask(p))), w.Save(v))
  }

  /**
   * `handleWaitingForCommentState`, with `thanks` the closing reply. The
   * draft and the state are cleared only once the vote bot has posted the
   * comment; the save that follows may fail unnoticed.
   */
  function PostStep(comment: string, u: UserRecord, w: World, chatId: int, connects: bool,
                    thanks: Text): (s: Step<Chattable>)
    ensures !connects ==> s == Step(u, Returned(NewMessage(chatId, DefaultError)), w)
    ensures connects ==> s.world.outbox == w.outbox.Sent(Posting(u, comment))
    ensures connects && !w.outbox.Accepts(Posting(u, comment)) ==>
      s == Step(u, Returned(NewMessage(chatId, DefaultError)), w)
    ensures connects && w.outbox.Accepts(Posting(u, comment)) ==>
      s.user == Reset(u) && s.world == w.Post(Posting(u, comment)).Save(Reset(u)) &&
      s.reply == Returned(NewMessage(chatId, thanks))
  {
    if !connects then Step(u, Returned(NewMessage(chatId, DefaultError)), w)
    else
      var m := Posting(u, comment);
      if !w.outbox.Accepts(m) then Step(u, Returned(NewMessage(chatId, DefaultError)), w)
      else Step(Reset(u), Returned(NewMessage(chatId, thanks)), w.Post(m).Save(Reset(u)))
  }

  function Ask(p: Proposal): Text {
    AskComment(p.nomineeName, p.nomineeTelegramNickname)
  }

  /**
   * `Handle`: with no step under way the text is the callback; in
   * `waiting_for_comment` it is the comment; any other step is an error.
   * `parse` is ParseInt and `connects` whether the vote bot's token opens a bot.
   */
  function HandleStep(command: string, u: UserRecord, w: World, chatId: int, parse: string -> Option<int>,
                      connects: bool): (s: Step<seq<Chattable>>)
    ensures s.reply.Returned? ==> |s.reply.value| == 1
    ensures u.telegramState.lastCommandState !in {"", WaitingForComment} ==>
      s == Step(u, Returned([NewMessage(chatId, DefaultError)]), w)
  {
    var state := u.telegramState.lastCommandState;
    if state == "" then Listed(LoadStep(command, u, w, chatId, parse, Ask))
    else if state == WaitingForComment then Listed(PostStep(command, u, w, chatId, connects, CommentThanks))
    else Step(u, Returned([NewMessage(chatId, DefaultError)]), w)
  }

  // ------------------------------------------------------------ properties

  /** A callback `add_comment:<t>` whose `t` holds no ':' names what `parse` reads from `t`. */
  lemma CallbackNamesProposal(t: string, parse: string -> Option<int>)
    requires Free(t, ':')
    ensures CallbackId(CommandName + ":" + t, parse) == parse(t)
  {
    assert Free(CommandName, ':');
    assert CommandName + ":" + t == CommandName + [':'] + t;
    SplitConcat(CommandName, t, ':');
    SplitFree(t, ':');
  }

  /** A callback with other than exactly one ':' names no proposal. */
  lemma {:induction false} OneSeparatorOnly(command: string, parse: string -> Option<int>)
    requires Occurrences(command, ':') != 1
    ensures CallbackId(command, parse) == None
  {
    SplitParts(command, ':');
  }

  /**
   * The whole flow: the callback loads the proposal, and the next text is
   * posted to its poll chat as a reply to the poll, after which the user
   * has left the conversation; a refused post leaves the user where it was.
   */
  lemma CommentReachesPoll(t: string, comment: string, u: UserRecord, w: World, chatId: int,
                           parse: string -> Option<int>, connects: bool, p: Proposal)
    requires u.telegramState.lastCommandState == "" && Free(t, ':')
    requires parse(t).Some? && w.proposals.ById(parse(t).value) == Found(p)
    ensures
      var s1 := HandleStep(CommandName + ":" + t, u, w, chatId, parse, connects);
      var s2 := HandleStep(comment, s1.user, s1.world, chatId, parse, connects);
      var m := Message(p.poll.chatId, CommentPosted(u.telegramNickname, comment), p.poll.pollMessageId);
      s1.user.tempProposal == p &&
      s2.world.outbox.sent == w.outbox.sent + (if connects && w.outbox.Accepts(m) then [m] else []) &&
      (s2.user == Reset(s1.user) <==> connects && w.outbox.Accepts(m))
  {
    CallbackNamesProposal(t, parse);
  }

  /** A callback naming a proposal that does not exist panics at the dereference. */
  lemma MissingProposalPanics(t: string, u: UserRecord, w: World, chatId: int, parse: string -> Option<int>,
                              connects: bool)
    requires u.telegramState.lastCommandState == "" && Free(t, ':')
    requires parse(t).Some? && w.proposals.ById(parse(t).value) == Missing
    ensures HandleStep(CommandName + ":" + t, u, w, chatId, parse, connects).reply == Panicked
  {
    CallbackNamesProposal(t, parse);
  }

  // ------------------------------------------------------------ the handler

  /** `handleAddCommentCommand`. */
  method HandleAddCommentCommand(command: string, user: User, users: UserStore, proposals: ProposalStore,
                                 voteBot: Messenger, chatId: int, parse: string -> Option<int>)
    returns (o: Outcome<Chattable>)
    modifies user, users`rows
    ensures LoadStep(command, old(user.Record()), old(Snapshot(users, proposals, voteBot)), chatId, parse, Ask) ==
      Step(user.Record(), o, Snapshot(users, proposals, voteBot))
  {
    var parts := Split(command, ':');
    if |parts| != 2 {
      return Returned(NewMessage(chatId, DefaultError));
    }
    var id := parse(parts[1]);
    if id.None? {
      return Returned(NewMessage(chatId, DefaultError));
    }
    var proposal := proposals.Table().ById(id.value);
    if proposal.Failed? {
      return Returned(NewMessage(chatId, DefaultError));
    }
    if proposal.Missing? {
      return Panicked;
    }
    user.tempProposal := proposal.value;
    user.telegramState := user.telegramState.(lastCommandState := WaitingForComment);
    var _ := UpdateUser(user, users);
    o := Returned(NewMessage(chatId, Ask(proposal.value)));
  }

  /** `handleWaitingForCommentState`; `voteBot` is what `NewBotAPI` opens with the vote bot's token. */
  method HandleWaitingForCommentState(comment: string, user: User, users: UserStore, proposals: ProposalStore,
                                      voteBot: Messenger, chatId: int)
    returns (m: Chattable)
    modifies user, users`rows, voteBot`sent
    ensures PostStep(comment, old(user.Record()), old(Snapshot(users, proposals, voteBot)), chatId, voteBot.connects,
                     CommentThanks) ==
      Step(user.Record(), Returned(m), Snapshot(users, proposals, voteBot))
  {
    if !voteBot.connects {
      return NewMessage(chatId, DefaultError);
    }
    var message := Message(user.tempProposal.poll.chatId, CommentPosted(user.telegramNickname, comment),
                           user.tempProposal.poll.pollMessageId);
    var ok := voteBot.Send(message);
    if !ok {
      return NewMessage(chatId, DefaultError);
    }
    user.tempProposal := NoProposal;
    user.telegramState := NoState;
    var _ := UpdateUser(user, users);
    m := NewMessage(chatId, CommentThanks);
  }

  /** `Handle`. */
  method Handle(command: string, user: User, users: UserStore, proposals: ProposalStore, voteBot: Messenger,
                chatId: int, parse: string -> Option<int>)
    returns (o: Outcome<seq<Chattable>>)
    modifies user, users`rows, voteBot`sent
    ensures HandleStep(command, old(user.Record()), old(Snapshot(users, proposals, voteBot)), chatId, parse,
                       voteBot.connects) ==
      Step(user.Record(), o, Snapshot(users, proposals, voteBot))
  {
    var state := user.telegramState.lastCommandState;
    if state == "" {
      var r := HandleAddCommentCommand(command, user, users, proposals, voteBot, chatId, parse);
      o := if r.Returned? then Returned([r.value]) else Panicked;
    } else if state == WaitingForComment {
      var m := HandleWaitingForCommentState(command, user, users, proposals, voteBot, chatId);
      o := Returned([m]);
    } else {
      o := Returned([NewMessage(chatId, DefaultError)]);
    }
  }
}
