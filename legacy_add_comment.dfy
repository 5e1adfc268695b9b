/**
 * The older bot's `add_comment` conversation. It takes the same steps as
 * the current one; only its two replies are plainer.
 */
module LegacyAddComment {
  import opened Wrappers
  import opened Models
  import opened GoStrings
  import opened Repositories
  import opened Transport
  import opened Conversation
  import AddComment

  function Ask(p: Proposal): Text {
    AskCommentPlain
  }

  /** `Handle(command, user, chatID)`. */
  function HandleStep(command: string, u: UserRecord, w: World, chatId: int, parse: string -> Option<int>,
                      connects: bool): (s: Step<seq<Chattable>>)
    ensures s.reply.Returned? ==> |s.reply.value| == 1
    ensures u.telegramState.lastCommandState !in {"", AddComment.WaitingForComment} ==>
      s == Step(u, Returned([NewMessage(chatId, DefaultError)]), w)
  {
    var state := u.telegramState.lastCommandState;
    if state == "" then Listed(AddComment.LoadStep(command, u, w, chatId, parse, Ask))
    else if state == AddComment.WaitingForComment then
      Listed(AddComment.PostStep(command, u, w, chatId, connects, CommentSent))
    else Step(u, Returned([NewMessage(chatId, DefaultError)]), w)
  }

  /**
   * Both variants leave the same user and the same world, panic on the
   * same inputs and return one message; where those messages differ, it
   * is only the prompt for the comment and the closing thanks.
   */
  lemma SameFlowAsCurrent(command: string, u: UserRecord, w: World, chatId: int, parse: string -> Option<int>,
                          connects: bool)
    ensures
      var older := HandleStep(command, u, w, chatId, parse, connects);
      var current := AddComment.HandleStep(command, u, w, chatId, parse, connects);
      older.user == current.user && older.world == current.world && older.reply.Panicked? == current.reply.Panicked? &&
      (older.reply.Returned? && older.reply.value != current.reply.value ==>
        older.reply.value[0].chatId == current.reply.value[0].chatId &&
        ((older.reply.value[0].text == AskCommentPlain && current.reply.value[0].text.AskComment?) ||
         (older.reply.value[0].text == CommentSent && current.reply.value[0].text == CommentThanks)))
  {
  }

  /** `handleAddCommentCommand`. */
  method HandleAddCommentCommand(command: string, user: User, users: UserStore, proposals: ProposalStore,
                                 voteBot: Messenger, chatId: int, parse: string -> Option<int>)
    returns (o: Outcome<Chattable>)
    modifies user, users`rows
    ensures AddComment.LoadStep(command, old(user.Record()), old(Snapshot(users, proposals, voteBot)), chatId,
                                parse, Ask) ==
      Step(user.Record(), o, Snapshot(users, proposals, voteBot))
  {
    var parts := Split(command, ':');
    if |parts| != 2 {
      return Returned(NewMessage(chatId, DefaultError));
    }
    var id := parse(parts[1]);
    if id.None? {
      return Returned(NewMessage(chatId, DefaultError));
    }
    var proposal := proposals.Table().ById(id.value);
    if proposal.Failed? {
      return Returned(NewMessage(chatId, DefaultError));
    }
    if proposal.Missing? {
      return Panicked;
    }
    user.tempProposal := proposal.value;
    user.telegramState := user.telegramState.(lastCommandState := AddComment.WaitingForComment);
    var _ := UpdateUser(user, users);
    o := Returned(NewMessage(chatId, AskCommentPlain));
  }

  /** `handleWaitingForCommentState`. */
  method HandleWaitingForCommentState(comment: string, user: User, users: UserStore, proposals: ProposalStore,
                                      voteBot: Messenger, chatId: int)
    returns (m: Chattable)
    modifies user, users`rows, voteBot`sent
    ensures AddComment.PostStep(comment, old(user.Record()), old(Snapshot(users, proposals, voteBot)), chatId,
                                voteBot.connects, CommentSent) ==
      Step(user.Record(), Returned(m), Snapshot(users, proposals, voteBot))
  {
    if !voteBot.connects {
      return NewMessage(chatId, DefaultError);
    }
    var message := Message(user.tempProposal.poll.chatId, CommentPosted(user.telegramNickname, comment),
                           user.tempProposal.poll.pollMessageId);
    var ok := voteBot.Send(message);
    if !ok {
      return NewMessage(chatId, DefaultError);
    }
    user.tempProposal := NoProposal;
    user.telegramState := NoState;
    var _ := UpdateUser(user, users);
    m := NewMessage(chatId, CommentSent);
  }

  /** `Handle`. */
  method Handle(command: string, user: User, users: UserStore, proposals: ProposalStore, voteBot: Messenger,
                chatId: int, parse: string -> Option<int>)
    returns (o: Outcome<seq<Chattable>>)
    modifies user, users`rows, voteBot`sent
    ensures HandleStep(command, old(user.Record()), old(Snapshot(users, proposals, voteBot)), chatId, parse,
                       voteBot.connects) ==
      Step(user.Record(), o, Snapshot(users, proposals, voteBot))
  {
    var state := user.telegramState.lastCommandState;
    if state == "" {
      var r := HandleAddCommentCommand(command, user, users, proposals, voteBot, chatId, parse);
      o := if r.Returned? then Returned([r.value]) else Panicked;
    } else if state == AddComment.WaitingForComment {
      var m := HandleWaitingForCommentState(command, user, users, proposals, voteBot, chatId);
      o := Returned([m]);
    } else {
      o := Returned([NewMessage(chatId, DefaultError)]);
    }
  }
}
