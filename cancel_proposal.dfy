/**
 * `/cancel_proposal` of the access governance bot: it drops the draft and
 * the whole conversation state, and persists the user.
 */
module CancelProposal {
  import opened Wrappers
  import opened Models
  import opened Repositories
  import opened Transport
  import opened Conversation

  const CommandName := "cancel_proposal"

  /** What cancelling replies: the confirmation, or the default error when saving fails. */
  function Reply(u: UserRecord, w: World, chatId: int): (m: Chattable)
    ensures m.Message? && m.chatId == chatId && m.replyTo == 0
    ensures m.text == DefaultError <==> w.SaveFails(Reset(u))
    ensures m.text == DraftCancelled <==> !w.SaveFails(Reset(u))
  {
    NewMessage(chatId, if w.SaveFails(Reset(u)) then DefaultError else DraftCancelled)
  }

  /** `Handle`: whatever the text, the user is reset and persisted; the reply is one message. */
  function HandleStep(u: UserRecord, w: World, chatId: int): (s: Step<seq<Chattable>>)
    ensures s.user == Reset(u) && s.world == w.Save(Reset(u))
    ensures s.reply == Returned([Reply(u, w, chatId)])
  {
    Step(Reset(u), Returned([Reply(u, w, chatId)]), w.Save(Reset(u)))
  }

  /** Cancelling again changes nothing more: the user, the tables and the reply stay. */
  lemma CancelIdempotent(u: UserRecord, w: World, chatId: int)
    ensures
      var once := HandleStep(u, w, chatId);
      var twice := HandleStep(once.user, once.world, chatId);
      twice.user == once.user && twice.world == once.world && twice.reply == once.reply
  {
    UpdateIdempotent(w.users, Reset(u));
  }

  /** `Handle`; the text and the bot are not used. */
  method Handle(text: string, user: User, users: UserStore, proposals: ProposalStore, bot: Messenger, chatId: int)
    returns (ms: seq<Chattable>)
    modifies user, users`rows
    ensures HandleStep(old(user.Record()), old(Snapshot(users, proposals, bot)), chatId) ==
      Step(user.Record(), Returned(ms), Snapshot(users, proposals, bot))
  {
    user.tempProposal := NoProposal;
    user.telegramState := NoState;
    var r := users.Update(user.Record());
    if r.Failed? {
      return [NewMessage(chatId, DefaultError)];
    }
    ms := [NewMessage(chatId, DraftCancelled)];
  }
}
