/**
 * The older bot's `/cancel_proposal`, `Start`: the same reset as the
 * current command, answered with a single message instead of a slice.
 */
module LegacyCancelProposal {
  import opened Wrappers
  import opened Models
  import opened Repositories
  import opened Transport
  import opened Conversation
  import CancelProposal

  /** `Start`: the user is reset and persisted; the reply says whether saving failed. */
  function StartStep(u: UserRecord, w: World, chatId: int): (s: Step<Chattable>)
    ensures Listed(s) == CancelProposal.HandleStep(u, w, chatId)
  {
    Step(Reset(u), Returned(CancelProposal.Reply(u, w, chatId)), w.Save(Reset(u)))
  }

  /** `Start`; the text is not used. */
  method Start(text: string, user: User, users: UserStore, proposals: ProposalStore, bot: Messenger, chatId: int)
    returns (m: Chattable)
    modifies user, users`rows
    ensures StartStep(old(user.Record()), old(Snapshot(users, proposals, bot)), chatId) ==
      Step(user.Record(), Returned(m), Snapshot(users, proposals, bot))
  {
    user.tempProposal := NoProposal;
    user.telegramState := NoState;
    var r := users.Update(user.Record());
    if r.Failed? {
      return NewMessage(chatId, DefaultError);
    }
    m := NewMessage(chatId, DraftCancelled);
  }
}
