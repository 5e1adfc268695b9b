# Access governance system — a verified model of its core

The access governance system runs a community's admission process over
Telegram.
- Members nominate people from a chat conversation with the access governance bot (`/create_proposal`).
- Each nomination opens an anonymous poll among the seeders.
- Members can comment on a pending proposal (`add_comment:<id>` callbacks).
- A daily proposal state service settles every poll whose voting has ended. It opens a guest account for each approved nominee and tells the nominator and the seeders' chat.
- An authorisation bot grants the Discord member role and promotes a guest to member (`/start <discord id>`).

This project models the Go code of those parts in Dafny and proves what it
promises:
- the settlement engine: vote counting, seeder quorum, the decision rule, the deadline filter, the persistence loop and the notifications;
- both variants of the proposal-creation and comment conversations;
- both variants of the update router;
- cancelling a draft;
- the authorisation bot's `/start`.

Layout (one module per file):

| file | module | models |
|---|---|---|
| wrappers.dfy | `Wrappers` | `Option`, the three-way repository answer `Lookup` (error / no row / row), `Outcome` (a value or a Go nil-dereference panic) |
| models.dfy | `Models` | users, proposals, polls, votes, chat state, roles and statuses; `class User` is the `*models.User` handlers change in place; `Chattable` messages |
| go_strings.dfy | `GoStrings` | `strings.Split`/`Join`/`TrimPrefix`/`ToLower`, `strconv.Atoi`/`Itoa` |
| repositories.dfy | `Repositories` | the user and proposal repositories as in-memory tables whose calls may fail (`class UserStore`, `class ProposalStore`) |
| services.dfy | `VoteServices` | the vote service's `GetVotes`/`CreatePoll` answers |
| transport.dfy | `Transport` | a Telegram bot's outbox (`class Messenger`) and the Discord role grant (`class Discord`) |
| conversation.dfy | `Conversation` | what a chat handler sees and changes: the user, the tables, the outbox |
| settlement.dfy | `ProposalStateService` | `cmd/proposal_state_service/main.go` |
| create_proposal.dfy, legacy_create_proposal.dfy | `CreateProposal`, `LegacyCreateProposal` | the current and the older `create_proposal` conversation |
| add_comment.dfy, legacy_add_comment.dfy | `AddComment`, `LegacyAddComment` | the current and the older `add_comment` flow |
| cancel_proposal.dfy, legacy_cancel_proposal.dfy | `CancelProposal`, `LegacyCancelProposal` | `/cancel_proposal` |
| authorization.dfy | `Authorization` | the authorisation bot's `/start` |
| command_handler.dfy, legacy_command_handler.dfy | `CommandHandler`, `LegacyCommandHandler` | the current and the older update router |

How the model is built:
- **Handlers.** Every handler that changes state is a `method` over the in-place `User` object and the stores. Its `ensures` equates the new state and the reply with a pure step function of the old state, such as `CreateProposal.NicknameStep` or `AddComment.PostStep`. The properties are lemmas about those step functions.
- **Settlement loops.** These are methods with loop invariants, proved against recursive specification functions (`Tally`, `VotedUsers`, `VotedSeeders`, `Due`, `Kept`, `Accounts`).
- **Thresholds.** `math.Round(float64(n) * f)` is `Round(n, p/q) = (2*n*p + q) / (2*q)`, with every configured share an exact fraction `p/q`.
- **Repository calls.** A call fails exactly when its `Call` value (operation and key) is in the store's `failing` set.
- **Nil dereferences.** A Go dereference of a nil pointer is the outcome `Panicked`.

## Model

| member | source | states |
|---|---|---|
| `ProposalStateService.Round` | cmd/proposal_state_service/main.go:117 | the result is the integer nearest to n·p/q, with halves rounded up (the two-sided bound that defines it) |
| `ProposalStateService.Count` | cmd/proposal_state_service/main.go:109-115 | the number of votes for one option never exceeds the number of votes |
| `ProposalStateService.YesAndNoDisjoint` | cmd/proposal_state_service/main.go:109-115 | no vote is counted as both yes and no: yes + no ≤ len(votes) |
| `ProposalStateService.CancelsAtMostOneNo` | cmd/proposal_state_service/main.go:117-123 | yes is never changed; the returned no is the raw no or one less; it is one less exactly when raw no > 0 and yes ≥ Round(len(votes), YesVotesToOvercomeNo) |
| `ProposalStateService.OtherOptionsIgnored` | cmd/proposal_state_service/main.go:109-117 | a vote for any option other than "yes"/"no" changes neither count but still adds one to len(votes) |
| `ProposalStateService.TallyExamples` | cmd/proposal_state_service/main_test.go:16-68 | the numeric expectations of the five counting tests, e.g. (2 yes, 1 no) → (2, 0) and (1 yes, 2 no) → (1, 2) at 0.5 |
| `ProposalStateService.CalculateYesAndNoVotes` | cmd/proposal_state_service/main.go:108-124 | the counting loop returns exactly the `Tally` whose properties the lemmas above state |
| `ProposalStateService.VotedUsers` | cmd/proposal_state_service/main.go:126-143 | no more voted users than votes |
| `ProposalStateService.VotedUsersResolved` | cmd/proposal_state_service/main.go:129-139 | a user is a voted user iff the lookup of some vote's voter found that user; failed and empty lookups are dropped |
| `ProposalStateService.GetVotedUsers` | cmd/proposal_state_service/main.go:126-143 | the loop returns exactly `VotedUsers`, in vote order |
| `ProposalStateService.VotedSeeders` | cmd/proposal_state_service/main.go:145-155 | no more seeders than users |
| `ProposalStateService.VotedSeedersAppend` | cmd/proposal_state_service/main.go:148-152 | seeder selection keeps the input order: it distributes over concatenation |
| `ProposalStateService.VotedSeedersMultiplicity` | cmd/proposal_state_service/main.go:145-155 | each seeder is kept as often as it occurs (no deduplication) and nobody else is kept |
| `ProposalStateService.GetVotedSeeders` | cmd/proposal_state_service/main.go:145-155 | the loop returns exactly `VotedSeeders` |
| `ProposalStateService.UpdateProposalStatus` | cmd/proposal_state_service/main.go:157-177 | only the status changes, and it is always one of rejected / no_quorum / approved; the four ordered rules: no votes reject; too few voting seeders give no_quorum (and only they do); with the quorum met, too few yes votes or a remaining no vote reject; otherwise approved (as an iff) |
| `ProposalStateService.DecisionExamples` | cmd/proposal_state_service/main_test.go:155-213 | the expectations of the five decision tests |
| `ProposalStateService.ApprovedIff` | cmd/proposal_state_service/main.go:157-177 | approved iff votes are non-empty, the seeder quorum is met, yes ≥ Round(len(votes), MinYesPercentage) and the adjusted no count is 0 (no raw no, or one cancelled by enough yes votes) |
| `ProposalStateService.TwoNoVotesNeverApproved` | cmd/proposal_state_service/main.go:117-175 | two or more raw "no" votes never give approved |
| `ProposalStateService.Due` | cmd/proposal_state_service/main.go:85-103 | a pass hands on no more proposals than it is given |
| `ProposalStateService.DueSound` | cmd/proposal_state_service/main.go:85-103 | every proposal handed on is the settled form of an input whose voting is over and whose votes were fetched |
| `ProposalStateService.DueComplete` | cmd/proposal_state_service/main.go:85-103 | every input whose voting is over and whose votes were fetched is handed on, settled |
| `ProposalStateService.DueSettled` | cmd/proposal_state_service/main.go:96-102 | everything handed on has a final status and differs from an input only in its status |
| `ProposalStateService.SettleOne` | cmd/proposal_state_service/main.go:96-100 | count, resolve voters, keep seeders and decide gives exactly `Settle` |
| `ProposalStateService.GetProposalsNeedToBeUpdated` | cmd/proposal_state_service/main.go:73-106 | the quorum is Round(len(seeders), Quorum) once per pass; each proposal is settled in place when due and untouched otherwise; the result is `Due`, the input-ordered due subsequence |
| `ProposalStateService.Backers` | cmd/proposal_state_service/main.go:202-207 | there are as many backers as "yes" votes |
| `ProposalStateService.BackersAreYesVoters` | cmd/proposal_state_service/main.go:203-207 | an id is a backer iff some "yes" vote carries it |
| `ProposalStateService.CollectBackers` | cmd/proposal_state_service/main.go:202-207 | the loop returns exactly `Backers`, in vote order |
| `ProposalStateService.NomineeAccountShape` | cmd/proposal_state_service/main.go:209-214 | the created account is a guest with the nominee's name and nickname, backed by exactly the "yes" voters |
| `ProposalStateService.KeptIff` | cmd/proposal_state_service/main.go:188-224 | a proposal is kept iff it is in the input, its update succeeded and, when approved, the vote refetch and the account creation succeeded |
| `ProposalStateService.KeptAppend` | cmd/proposal_state_service/main.go:188-224 | the kept proposals are a subsequence keeping input order |
| `ProposalStateService.AccountsAreGuests` | cmd/proposal_state_service/main.go:195-220 | every account created is a guest named after an approved, kept nominee |
| `ProposalStateService.KeptExamples` | cmd/proposal_state_service/main_test.go:215-270 | the expectations of the three persistence tests: none, one or both updates failing keep 2, 1 or 0 |
| `ProposalStateService.UpdateOne` | cmd/proposal_state_service/main.go:188-224 | one proposal of the pass: kept iff its update, its vote fetch (when approved) and its account creation went through; the proposal table gets the update unless it failed; the user table gains exactly the nominee's account, under the next key, iff the proposal opens one |
| `ProposalStateService.UpdateProposals` | cmd/proposal_state_service/main.go:179-227 | returns `Kept`; the proposal table gets every update that did not fail; the user table gets exactly the created accounts, numbered from the next key |
| `ProposalStateService.Notifications` | cmd/proposal_state_service/main.go:229-399 | two messages per final status and none otherwise; the first goes to the nominator; rejected and no_quorum reply to the poll in the poll's chat; approved sends both to the nominator, the second with the invite link; each message carries its status's text about the proposal's nominee (rejected and no_quorum: nominator text, then seeders text; approved: nominator text, then invite) |
| `ProposalStateService.NominatorToldOutcome` | cmd/proposal_state_service/main.go:229-399 | a settled proposal's nominator is told that proposal's own outcome about its own nominee; on rejected and no_quorum the poll chat is told the same outcome; on approved the second message reports no outcome |
| `ProposalStateService.Accepted` | cmd/proposal_state_service/main.go:266-271 | a message is delivered iff it is one of the messages and Telegram does not refuse it |
| `ProposalStateService.SendAll` | cmd/proposal_state_service/main.go:266-271 | each message is tried in order; a refused one is skipped and the rest still go |
| `ProposalStateService.SendNotifications` | cmd/proposal_state_service/main.go:229-387 | no message for a non-final status; a missing nominator or an unusable bot panics before anything is sent; otherwise exactly the accepted messages of `Notifications` are sent |
| `CreateProposal.NomineeType` | internal/tg_bot/commands/access_governance_bot/create_proposal.go:159-178 | member iff the lower-cased answer is "member", seeder iff it is "seeder", nothing else |
| `CreateProposal.TypeIgnoresCase` | internal/tg_bot/commands/access_governance_bot/create_proposal.go:159 | the answer's case does not matter |
| `CreateProposal.TypeExamples` | internal/tg_bot/commands/access_governance_bot/create_proposal.go:29-31 | "member", "Member" and "Seeder" are accepted; "guest" and "" are not |
| `CreateProposal.AcceptedIff` | internal/tg_bot/commands/access_governance_bot/create_proposal.go:195-248 | a nickname is accepted iff both lookups succeed, the latest proposal neither is pending nor was rejected within the cooldown, an existing user is not a seeder nor a member nominated as member, and a seeder nominee exists |
| `CreateProposal.OnlyLatestBlocks` | internal/tg_bot/commands/access_governance_bot/create_proposal.go:199-227 | only the latest proposal matters: one that does not block acts like no history |
| `CreateProposal.WhoMayBeNominated` | internal/tg_bot/commands/access_governance_bot/create_proposal.go:234-242 | a guest may be nominated for either role, a member only to seeder, a seeder never |
| `CreateProposal.NewestPendingRefuses` | internal/tg_bot/commands/access_governance_bot/create_proposal.go:195-213 | read against the table ordered by created_at, a strictly newest pending proposal refuses the nickname |
| `CreateProposal.CommandStep` | internal/tg_bot/commands/access_governance_bot/create_proposal.go:126-150 | a fresh draft with NominatorID = user.ID; a member goes straight to waiting_for_nickname as a member nominee; a seeder goes to waiting_for_type; any other role gets nil and nothing is saved |
| `CreateProposal.TypeStep` | internal/tg_bot/commands/access_governance_bot/create_proposal.go:152-186 | an unknown type is answered with nothing changed; a known one is stored and the user moves to waiting_for_nickname |
| `CreateProposal.NicknameStep` | internal/tg_bot/commands/access_governance_bot/create_proposal.go:188-282 | one leading "@" is dropped; a refused nickname changes nothing; an accepted one is stored and leads to waiting_for_name (member) or waiting_for_reason (seeder); only the draft and the state ever change |
| `CreateProposal.NameStep` | internal/tg_bot/commands/access_governance_bot/create_proposal.go:284-307 | stores the name, moves to waiting_for_reason and saves |
| `CreateProposal.ReasonStep` | internal/tg_bot/commands/access_governance_bot/create_proposal.go:309-345 | stores the comment, moves to waiting_for_confirm, saves, and sums up the draft |
| `CreateProposal.HandleStep` | internal/tg_bot/commands/access_governance_bot/create_proposal.go:68-124 | one reply per call; an unknown state is answered with the default error and nothing changes |
| `CreateProposal.YesClears` | internal/tg_bot/commands/access_governance_bot/create_proposal.go:91-116 | after an answer of exactly "Да" that does not panic, the draft and the state are cleared and saved, whatever the submission did |
| `CreateProposal.NoRestarts` | internal/tg_bot/commands/access_governance_bot/create_proposal.go:352-357 | "Нет, начать заново" in waiting_for_confirm files no proposal and posts nothing; the cleared user is saved and the command starts again: a fresh draft by the same nominator, at waiting_for_nickname for a member and waiting_for_type for a seeder |
| `CreateProposal.OtherAnswerSubmitsWithoutClearing` | internal/tg_bot/commands/access_governance_bot/create_proposal.go:347-424 | any other confirm answer also files the draft, but leaves the user waiting for confirmation with the filed row as its draft |
| `CreateProposal.SubmissionFiles` | internal/tg_bot/commands/access_governance_bot/create_proposal.go:389-413 | a submission files at most one row: the draft dated by the clock, with the poll unless the service answered the zero poll, the next key and status created; it is appended to the user's proposals |
| `CreateProposal.HandleCreateProposalCommand` | internal/tg_bot/commands/access_governance_bot/create_proposal.go:126-150 | the in-place handler does exactly `CommandStep` |
| `CreateProposal.HandleWaitingForTypeState` | internal/tg_bot/commands/access_governance_bot/create_proposal.go:152-186 | the in-place handler does exactly `TypeStep` |
| `CreateProposal.HandleWaitingForNicknameState` | internal/tg_bot/commands/access_governance_bot/create_proposal.go:188-282 | the in-place handler does exactly `NicknameStep` |
| `CreateProposal.HandleWaitingForNameState` | internal/tg_bot/commands/access_governance_bot/create_proposal.go:284-307 | the in-place handler does exactly `NameStep` |
| `CreateProposal.HandleWaitingForReasonState` | internal/tg_bot/commands/access_governance_bot/create_proposal.go:309-345 | the in-place handler does exactly `ReasonStep` |
| `CreateProposal.HandleWaitingForConfirmState` | internal/tg_bot/commands/access_governance_bot/create_proposal.go:347-424 | the in-place handler does exactly the confirm step, whose two branches `NoRestarts` and the submission lemmas state |
| `CreateProposal.Submit` | internal/tg_bot/commands/access_governance_bot/create_proposal.go:359-423 | poll, filing and user update as the submission step describes, stopping at the first failure |
| `CreateProposal.Handle` | internal/tg_bot/commands/access_governance_bot/create_proposal.go:68-124 | the in-place dispatcher does exactly `HandleStep` |
| `LegacyCreateProposal.NomineeType` | internal/tg_bot/commands/create_proposal.go:118-126 | member iff the answer is exactly "Member", seeder iff exactly "Seeder" |
| `LegacyCreateProposal.TypeIsExact` | internal/tg_bot/commands/create_proposal.go:28-29 | the older bot refuses "member" and "SEEDER", which the current one accepts |
| `LegacyCreateProposal.AcceptedIff` | internal/tg_bot/commands/create_proposal.go:137-186 | accepted iff both lookups succeed, the latest proposal is neither pending nor approved nor rejected within RenominationPeriodDays, and no user has the nickname |
| `LegacyCreateProposal.StricterThanCurrent` | internal/tg_bot/commands/create_proposal.go:137-186 | whatever the older rule accepts for a member nominee, the current rule accepts too |
| `LegacyCreateProposal.CommandStep` | internal/tg_bot/commands/create_proposal.go:85-113 | the same entry split by role as the current bot |
| `LegacyCreateProposal.TypeStep` | internal/tg_bot/commands/create_proposal.go:115-132 | an unknown type changes nothing; a known one is stored and moves to waiting_for_nickname |
| `LegacyCreateProposal.NicknameStep` | internal/tg_bot/commands/create_proposal.go:134-202 | a refused nickname changes nothing; an accepted one is stored and always leads to waiting_for_name |
| `LegacyCreateProposal.HandleStep` | internal/tg_bot/commands/create_proposal.go:63-83 | one reply; the five states are dispatched and any other is the default error with nothing changed |
| `LegacyCreateProposal.ClearedOnlyOnSuccess` | internal/tg_bot/commands/create_proposal.go:238-289 | a submitted answer clears the state iff the poll, the proposal and the user update all succeed; otherwise the user is still waiting for confirmation |
| `LegacyCreateProposal.NoRestarts` | internal/tg_bot/commands/create_proposal.go:238-244 | "Нет, начать заново" files no proposal and posts nothing; the cleared user is saved and the command starts again on a fresh draft by the same nominator |
| `LegacyCreateProposal.HandleCreateProposalCommand` | internal/tg_bot/commands/create_proposal.go:85-113 | the in-place handler does exactly `CommandStep` |
| `LegacyCreateProposal.HandleWaitingForTypeState` | internal/tg_bot/commands/create_proposal.go:115-132 | the in-place handler does exactly `TypeStep` |
| `LegacyCreateProposal.HandleWaitingForNicknameState` | internal/tg_bot/commands/create_proposal.go:134-202 | the in-place handler does exactly `NicknameStep` |
| `LegacyCreateProposal.HandleWaitingForConfirmState` | internal/tg_bot/commands/create_proposal.go:238-289 | the in-place handler does exactly the confirm step, whose two branches `NoRestarts` and `ClearedOnlyOnSuccess` state |
| `LegacyCreateProposal.Handle` | internal/tg_bot/commands/create_proposal.go:63-83 | the in-place dispatcher does exactly `HandleStep` |
| `AddComment.LoadStep` | internal/tg_bot/commands/access_governance_bot/add_comment.go:60-85 | a malformed callback, an unparsable id or a failed lookup is answered with the default error and nothing changes; a missing proposal panics; a found one becomes the draft, and the user moves to waiting_for_comment |
| `AddComment.PostStep` | internal/tg_bot/commands/access_governance_bot/add_comment.go:87-109 | with no vote bot nothing changes; the comment is posted to the poll chat replying to the poll; a refused post changes nothing else; a delivered one resets the user and saves |
| `AddComment.HandleStep` | internal/tg_bot/commands/access_governance_bot/add_comment.go:48-58 | one reply; any state other than "" and waiting_for_comment gives the default error with nothing changed |
| `AddComment.CallbackNamesProposal` | internal/tg_bot/commands/access_governance_bot/add_comment.go:61-71 | `add_comment:<t>` with no ':' in t names exactly the id parsed from t |
| `AddComment.OneSeparatorOnly` | internal/tg_bot/commands/access_governance_bot/add_comment.go:61-65 | a callback with other than exactly one ':' names no proposal |
| `AddComment.CommentReachesPoll` | internal/tg_bot/commands/access_governance_bot/add_comment.go:60-109 | callback then comment: the proposal becomes the draft; the comment is delivered iff the bot connects and Telegram accepts it; the user is reset iff it was delivered |
| `AddComment.MissingProposalPanics` | internal/tg_bot/commands/access_governance_bot/add_comment.go:73-79 | an id with no proposal is dereferenced as nil |
| `AddComment.HandleAddCommentCommand` | internal/tg_bot/commands/access_governance_bot/add_comment.go:60-85 | the in-place handler does exactly `LoadStep` |
| `AddComment.HandleWaitingForCommentState` | internal/tg_bot/commands/access_governance_bot/add_comment.go:87-109 | the in-place handler does exactly `PostStep` |
| `AddComment.Handle` | internal/tg_bot/commands/access_governance_bot/add_comment.go:48-58 | the in-place dispatcher does exactly `HandleStep` |
| `LegacyAddComment.HandleStep` | internal/tg_bot/commands/add_comment.go:47-57 | one reply; any other state gives the default error with nothing changed |
| `LegacyAddComment.SameFlowAsCurrent` | internal/tg_bot/commands/add_comment.go:59-107 | the older flow leaves the same user and world and panics on the same inputs as the current one; only the prompt and the thanks differ |
| `LegacyAddComment.HandleAddCommentCommand` | internal/tg_bot/commands/add_comment.go:59-83 | the in-place handler does exactly the shared load step, with the plain prompt |
| `LegacyAddComment.HandleWaitingForCommentState` | internal/tg_bot/commands/add_comment.go:85-107 | the in-place handler does exactly the shared post step, with the older thanks |
| `LegacyAddComment.Handle` | internal/tg_bot/commands/add_comment.go:47-57 | the in-place dispatcher does exactly `HandleStep` |
| `CancelProposal.Reply` | internal/tg_bot/commands/access_governance_bot/cancel_proposal.go:37-44 | one message to the chat: the default error iff saving the reset user fails, the confirmation iff it does not |
| `CancelProposal.HandleStep` | internal/tg_bot/commands/access_governance_bot/cancel_proposal.go:34-45 | the draft and the whole chat state, LastCommand included, are reset and saved; the reply is one message |
| `CancelProposal.CancelIdempotent` | internal/tg_bot/commands/access_governance_bot/cancel_proposal.go:34-45 | cancelling twice leaves the same user, tables and reply as cancelling once |
| `CancelProposal.Handle` | internal/tg_bot/commands/access_governance_bot/cancel_proposal.go:34-45 | the in-place handler does exactly `HandleStep` |
| `LegacyCancelProposal.StartStep` | internal/tg_bot/commands/cancel_proposal.go:33-44 | the older reset is the current one, with a bare message instead of a one-message list |
| `LegacyCancelProposal.Start` | internal/tg_bot/commands/cancel_proposal.go:33-44 | the in-place handler does exactly `StartStep` |
| `Conversation.Reset` | internal/tg_bot/commands/access_governance_bot/cancel_proposal.go:35-36 | clears the draft and the chat state and nothing else |
| `Conversation.UpdateUser` | internal/tg_bot/commands/access_governance_bot/create_proposal.go:426-432 | persists the in-memory user and reports whether the call failed |
| `Authorization.Promoted` | internal/tg_bot/commands/authorization_bot/start.go:68-70 | rank never decreases; the role changes iff it is guest, which becomes member |
| `Authorization.StartStep` | internal/tg_bot/commands/authorization_bot/start.go:43-80 | one reply on every path: short circuit with nothing changed; a refused grant changes nothing; an unparsable id is set in memory only; otherwise the user is promoted and saved, and the reply says whether saving failed |
| `Authorization.RoleNeverDecreases` | internal/tg_bot/commands/authorization_bot/start.go:44-70 | a guest is never short-circuited; whatever happens, the role stays or a guest becomes a member |
| `Authorization.GuestBecomesMember` | internal/tg_bot/commands/authorization_bot/start.go:62-79 | a guest sending `Itoa(n)` is saved as a member with Discord id n; the confirmation comes iff saving succeeds |
| `Authorization.SecondStartIsShortCircuited` | internal/tg_bot/commands/authorization_bot/start.go:44-48 | after an authorisation with a non-zero id, a `/start` on the user as left in memory is answered at once, with no grant and no write |
| `Authorization.Handle` | internal/tg_bot/commands/authorization_bot/start.go:43-80 | the in-place handler does exactly `StartStep`, and asks Discord for the role once iff the user is not already authorised |
| `CommandHandler.Joined` | internal/tg_bot/handlers/access_governance_bot/command_handler.go:63-81 | a join event answers nothing, or panics on a nickname with no row |
| `CommandHandler.RetagOne` | internal/tg_bot/handlers/access_governance_bot/command_handler.go:71-73 | with unique keys, saving a new Telegram id changes that one row |
| `CommandHandler.NicknameFindsFirst` | internal/tg_bot/handlers/access_governance_bot/command_handler.go:65 | the nickname lookup finds the first row with that nickname, which is the only such row when the nicknames are unique, when the call does not fail |
| `CommandHandler.JoinRetagsOnly` | internal/tg_bot/handlers/access_governance_bot/command_handler.go:63-81 | the join loop adds and drops no row, and a row that changes gets only the Telegram id of an announced user with its nickname |
| `CommandHandler.JoinKeeps` | internal/tg_bot/handlers/access_governance_bot/command_handler.go:63-81 | announced users with other user names leave a row unchanged, even when a later lookup panics |
| `CommandHandler.JoinRetagsFound` | internal/tg_bot/handlers/access_governance_bot/command_handler.go:63-76 | an announced user whose nickname is first found at a row gets its Telegram id written there, unless that update fails; the write stands unless a later member announces the same nickname, and the members before it must not panic the loop |
| `CommandHandler.DisplayName` | internal/tg_bot/handlers/access_governance_bot/command_handler.go:125-137 | the non-empty first and last names, joined by one space |
| `CommandHandler.NameSplitsBack` | internal/tg_bot/handlers/access_governance_bot/command_handler.go:125-137 | a display name from two space-free names splits back into them |
| `CommandHandler.Bootstrap` | internal/tg_bot/handlers/access_governance_bot/command_handler.go:113-160 | a stored user is used as is; a failed lookup proceeds with the zero user; an unknown sender is created as a seeder iff its user name is an initial seeder's, and refused otherwise; a failed creation is the default error |
| `CommandHandler.Saved` | internal/tg_bot/handlers/access_governance_bot/command_handler.go:168-171 | the handler gets the saved user, or nil when saving fails |
| `CommandHandler.CallbackUpdatesPanic` | internal/tg_bot/handlers/access_governance_bot/command_handler.go:63 | as written, every update that carries only a callback panics before any write |
| `CommandHandler.JoinTestsAgreeOnMessages` | internal/tg_bot/handlers/access_governance_bot/command_handler.go:55-63 | the corrected join test changes nothing for updates with a message |
| `CommandHandler.Ignores` | internal/tg_bot/handlers/access_governance_bot/command_handler.go:45-86 | an update with neither part, and a group-chat message announcing nobody, give no output and no write |
| `CommandHandler.SeedersBootstrapped` | internal/tg_bot/handlers/access_governance_bot/command_handler.go:113-160 | a private message from an unknown sender adds a row iff the sender is an initial seeder and creation succeeds; the row is a seeder with the sender's id, nickname and display name |
| `CommandHandler.CommandsStartAfresh` | internal/tg_bot/handlers/access_governance_bot/command_handler.go:162-179 | a registered command is handed on with the draft cleared and only the command remembered; an unknown one gives no output |
| `CommandHandler.SubCommandsByPrefix` | internal/tg_bot/handlers/access_governance_bot/command_handler.go:181-198 | an answer to `c:<rest>` goes to command c with the message text |
| `CommandHandler.SubCommandsByHead` | internal/tg_bot/handlers/access_governance_bot/command_handler.go:181-198 | plain text with a command under way goes to the command named by `Head(LastCommand, ':')` when it is registered, and is dropped otherwise |
| `CommandHandler.PlainTextWithoutCommandIgnored` | internal/tg_bot/handlers/access_governance_bot/command_handler.go:93-110 | plain text from a user with no command under way gives no output |
| `CommandHandler.CallbacksReachCommands` | internal/tg_bot/handlers/access_governance_bot/command_handler.go:200-219 | with the join test corrected, `add_comment:<t>` reaches add_comment with its whole data, which is remembered as LastCommand |
| `CommandHandler.KeyboardAnswersIgnored` | internal/tg_bot/handlers/access_governance_bot/command_handler.go:200-223 | the create-proposal buttons' data ("Да", "member", "seeder") names no command, so such callbacks are dropped |
| `CommandHandler.Contains` | internal/tg_bot/handlers/access_governance_bot/command_handler.go:122-152 | the loop over the list finds a name iff it is in the list |
| `CommandHandler.RecordJoins` | internal/tg_bot/handlers/access_governance_bot/command_handler.go:63-81 | the in-place join loop does exactly `Joined` |
| `CommandHandler.CreateUserIfNeeded` | internal/tg_bot/handlers/access_governance_bot/command_handler.go:113-160 | the in-place lookup and creation do exactly `Bootstrap` |
| `CommandHandler.TryToHandleCommand` | internal/tg_bot/handlers/access_governance_bot/command_handler.go:162-179 | the in-place command dispatch does exactly the command route |
| `CommandHandler.TryToHandleSubCommand` | internal/tg_bot/handlers/access_governance_bot/command_handler.go:181-198 | the sub-command dispatch writes nothing and does exactly the prefix route |
| `CommandHandler.TryToHandleQueryCallback` | internal/tg_bot/handlers/access_governance_bot/command_handler.go:200-224 | the in-place callback dispatch does exactly the callback route |
| `CommandHandler.Handle` | internal/tg_bot/handlers/access_governance_bot/command_handler.go:39-111 | the router does exactly `Route`, the corrected routing function the lemmas above describe |
| `LegacyCommandHandler.Route` | internal/tg_bot/handlers/access_governance_bot_command_handler.go:32-35 | a nil message returns nil and writes nothing |
| `LegacyCommandHandler.SeedersBootstrapped` | internal/tg_bot/handlers/access_governance_bot_command_handler.go:39-68 | an unknown sender gets a row iff the lookup said "no row", it is an initial seeder and creation succeeds; the row holds only the Telegram id and the seeder role; a failed lookup is refused like a stranger |
| `LegacyCommandHandler.SubCommandsByWholeName` | internal/tg_bot/handlers/access_governance_bot_command_handler.go:87-103 | the older router names the command under way by the whole LastCommand, so `c:<rest>` reaches no command |
| `LegacyCommandHandler.PlainTextContinuesCommand` | internal/tg_bot/handlers/access_governance_bot_command_handler.go:84-103 | plain text from a stored user with a command under way goes to that command, with the text and the stored user, when it is registered; otherwise nil; nothing is written |
| `LegacyCommandHandler.CommandsRemembered` | internal/tg_bot/handlers/access_governance_bot_command_handler.go:70-82 | a registered command is remembered, with draft and step untouched, and handed the saved user |
| `LegacyCommandHandler.Handle` | internal/tg_bot/handlers/access_governance_bot_command_handler.go:29-108 | the in-place router does exactly `Route` |
| `Repositories.First` | internal/db/repositories/user_repository.go:83-95 | a single-row select finds a matching row, or nothing iff no row matches |
| `Repositories.FirstIsEarliest` | internal/db/repositories/user_repository.go:97-109 | what a single-row select finds is a matching row with no match before it, which is the only matching row when the columns are unique |
| `Repositories.Filter` | internal/db/repositories/proposal_repository.go:86-95 | a many-row select returns exactly the matching rows |
| `Repositories.ReplaceUser` | internal/db/repositories/user_repository.go:51 | `UPDATE ... WHERE id` writes over every row with the key and no other row |
| `Repositories.UpdateIdempotent` | internal/db/repositories/user_repository.go:50-67 | writing the same user twice leaves the table as writing it once |
| `Repositories.UserPointer` | internal/db/repositories/user_repository.go:69-81 | the returned pointer is nil iff there is no row; on a query error it points to the zero user |
| `Repositories.UserTable.ByTelegramId` | internal/db/repositories/user_repository.go:83-95 | error iff the call fails; a found user has the Telegram id; "no row" iff no row has it |
| `Repositories.UserTable.ByNickname` | internal/db/repositories/user_repository.go:97-109 | error iff the call fails; a found user has the nickname and no row before it does, which makes it the only such row when the nicknames are unique; "no row" iff no row has it |
| `Repositories.UserTable.ById` | internal/db/repositories/user_repository.go:69-81 | error iff the call fails; a found user has the key; "no row" iff no row has it |
| `Repositories.UserTable.UpdateAnswer` | internal/db/repositories/user_repository.go:50-67 | error iff the call fails; otherwise the user selected again, or nil when no row has its key |
| `Repositories.UserTable.CreateAnswer` | internal/db/repositories/user_repository.go:31-48 | error iff the call fails; otherwise the user under the next key |
| `Repositories.UserStore.Update` | internal/db/repositories/user_repository.go:50-67 | a failed call changes nothing; otherwise the row with the key is overwritten; the key invariant is kept |
| `Repositories.UserStore.Create` | internal/db/repositories/user_repository.go:31-48 | a failed call changes nothing; otherwise the user is appended under the next key; the key invariant is kept |
| `Repositories.ReplaceProposal` | internal/db/repositories/proposal_repository.go:51 | `UPDATE ... WHERE id` writes over every proposal with the key and no other |
| `Repositories.InsertByCreation` | internal/db/repositories/proposal_repository.go:91 | inserting into a list ordered by created_at keeps it ordered and adds exactly the one proposal |
| `Repositories.SortByCreation` | internal/db/repositories/proposal_repository.go:91 | `ORDER BY created_at ASC` gives an ordered permutation of the rows |
| `Repositories.Inserted` | internal/db/repositories/proposal_repository.go:32-48 | the inserted row gets the next key and, when its status is empty, the assumed column default `created`; nothing else changes |
| `Repositories.ProposalTable.ById` | internal/db/repositories/proposal_repository.go:73-84 | error iff the call fails; a found proposal has the key; "no row" iff no proposal has it |
| `Repositories.ProposalTable.ByNomineeNickname` | internal/db/repositories/proposal_repository.go:86-95 | error iff the call fails; otherwise exactly the nominee's proposals, oldest first |
| `Repositories.ProposalTable.CreateAnswer` | internal/db/repositories/proposal_repository.go:32-48 | error iff the call fails; otherwise the inserted row |
| `Repositories.ProposalStore.Update` | internal/db/repositories/proposal_repository.go:50-66 | a failed call changes nothing; otherwise the proposal with the key is overwritten |
| `Repositories.ProposalStore.Create` | internal/db/repositories/proposal_repository.go:32-48 | a failed call changes nothing; otherwise the row is inserted under the next key |
| `Transport.Outbox.Sent` | cmd/proposal_state_service/main.go:267 | a message is appended to what was sent iff Telegram accepts it |
| `Transport.Messenger.Send` | cmd/proposal_state_service/main.go:267 | `bot.Send` succeeds iff the message is not refused, and only then records it |
| `Transport.Discord.GuildMemberRoleAdd` | internal/tg_bot/commands/authorization_bot/start.go:50 | the grant succeeds iff Discord does not refuse the id, and only then is recorded |
| `GoStrings.Split` | internal/tg_bot/handlers/access_governance_bot/command_handler.go:201 | `strings.Split` never returns an empty list |
| `GoStrings.SplitParts` | internal/tg_bot/commands/access_governance_bot/add_comment.go:61-62 | no part holds the separator, and there is one more part than separators |
| `GoStrings.JoinSplit` | internal/tg_bot/handlers/access_governance_bot/command_handler.go:136 | joining a split gives the string back |
| `GoStrings.SplitJoin` | internal/tg_bot/handlers/access_governance_bot/command_handler.go:136 | splitting a join of separator-free parts gives the parts back |
| `GoStrings.SplitConcat` | internal/tg_bot/handlers/access_governance_bot/command_handler.go:182 | a separator-free head before the separator is the first part |
| `GoStrings.Head` | internal/tg_bot/handlers/access_governance_bot/command_handler.go:182 | the first part is the longest separator-free prefix |
| `GoStrings.SplitHead` | internal/tg_bot/handlers/access_governance_bot/command_handler.go:182 | `Split(s, sep)[0]` is that prefix |
| `GoStrings.TrimPrefix` | internal/tg_bot/commands/access_governance_bot/create_proposal.go:193 | drops exactly one copy of the prefix when present, and nothing otherwise |
| `GoStrings.ToLower` | internal/tg_bot/commands/access_governance_bot/create_proposal.go:159 | lower-cases each character and keeps the length |
| `GoStrings.LowerIdempotent` | internal/tg_bot/commands/access_governance_bot/create_proposal.go:159 | lower-casing twice is lower-casing once |
| `GoStrings.Atoi` | internal/tg_bot/commands/authorization_bot/start.go:62 | the value is always within int64, and a failed parse that is not clamped to a bound gives 0 |
| `GoStrings.AtoiItoa` | internal/tg_bot/commands/authorization_bot/start.go:62 | `Atoi` reads back every int64 that `Itoa` writes |

## Left out

- Routing: the routers return a value naming the command, the text, the user handed on and the chat. They do not call the handlers. Which handler a message reaches is fully stated. What it then does is stated by the handler modules for a non-nil user; the nil user of a failed save is the next line.
- Nil user after a failed save: when the router's save of the user fails, Go hands the command a nil user. In the model this is `Dispatched(command, text, None, chat)`, from `CommandHandler.Saved` (command_handler.go:168-173 and 213-218; access_governance_bot_command_handler.go:76-81). Every handler reads that user first (create_proposal.go:68-79, add_comment.go:48-49, cancel_proposal.go:34-35, in both variants) and panics. The handler modules take a non-nil `User`, so what a handler does with `None` is not modelled; it would be `Panicked` before anything is written or sent.
- Nil sender: `Incoming.from` is always present. A message without `From` panics in the routers (command_handler.go:83; `message.From.ID` in the authorisation router and the old router), and that case is not modelled.
- Tests: `main_test.go` comes from another revision of the service: it calls a three-argument `updateProposals` and a `Username` field. Only its numeric expectations are modelled (`TallyExamples`, `DecisionExamples`, `KeptExamples`).
- Compilation: as given, the repository does not build. The current router calls `Handle` with four arguments, while the command interface the handlers implement takes five. Each handler is modelled with the arguments it actually uses.
- Listing commands: `/start` of the access governance bot, `pending_proposals` and `approved_proposals` are presentation only. They are routed by name, but their bodies are not part of this model.
- ParseInt: `strconv.ParseInt(_, 0, 64)` (base prefixes, underscores) is a parse oracle `string -> Option<int>`. `strconv.Atoi` is modelled concretely.
- `GoStrings.ToLower`: folds only the ASCII letters, not Unicode case.
- Message texts: these are tags (the `Text` datatype) carrying the values they interpolate, not the Russian strings, Markdown or keyboards. `Notifications` says who gets which message tag and with which values, not the wording.
- Calendar: times are integers, and `time.Now()`, `AddDate` and `time.Date(..., 12, 0, 0, 0)` are not computed. The cooldown start, the voting end and the poll due date are inputs (`Clock`, and `now` of the settlement pass).
- `ProposalStateService.Round`: models `math.Round(float64(n) * f)` with exact rationals; IEEE float rounding is not modelled.
- Process plumbing: gocron scheduling, the process entry points, health checks, the HTTP/JSON of the vote service, the Telegram and Discord SDKs, logging, dependency injection and config loading are not modelled. `GetManyByRole` and `GetManyByStatus` feeding the pass appear as its inputs, and a fatal error on them ends the process.
- Widths: integers are unbounded. Telegram and Discord ids, counts and keys are never near the int64 limits, except in `Atoi`, which clamps as Go does.
- Models: the Go model structs are stale (`models.User` has no `Name` or `BackersID`, and `models.Proposal` lists other statuses). The model follows the fields and statuses `main.go` and the handlers use.
- `Repositories.Inserted`: the struct tag's status default is `'creating'`, which is not one of the statuses; the model assumes the migrations give the status column the default `created`, the status the service settles.
- Unique users: `telegram_id` and `telegram_nickname` are unique columns (internal/db/models/user.go:26-27), and the model assumes the user table keeps them unique. With two matching rows, go-pg's single-row select would answer a multiple-rows error, and the model does not produce that error. `Repositories.FirstIsEarliest` and `UserTable.ByNickname` take the earliest matching row, which is the only one under this assumption.
- Repeated calls: a store call fails or succeeds by its operation and key, so the same call twice in one handler gets the same answer.
- Row order: `ORDER BY created_at` ties may come back in any order. `SortByCreation` fixes one admissible order, and the lemmas use only the ordering.
- Update re-select: the select after a successful `UPDATE`/`INSERT` never fails in the model. When the first statement fails, the call answers `(nil, err)`.
- Vote bot: `add_comment` opens a second bot with the vote bot's token. It is a separate `Messenger`; failing to open it is `connects == false`.
- Router: the callback path's read of `callbackQuery.Message.Chat.ID` (command_handler.go:59) still panics in the corrected router when the callback has no message.
- Panics: the nil dereferences that follow a "no row" answer of a store are the outcome `Panicked`, as written, not preconditions. This covers the join loop (command_handler.go:71), `add_comment` (add_comment.go:79 in both variants), the seeder nominee at confirm (create_proposal.go:379) and the nominator of a notification.
- Old router: its `GetOne` is not part of this model. Its "no row" error (`pg.ErrNoRows`) is `Missing`, and every other error is `Failed`.
- Sub-commands: Go distinguishes a nil response slice from an empty one, and the model does not. The "nil response" check of both routers therefore reads as passing the response on.

## Findings

| source | as written | input that shows it | evidently intended | confidence | as-written member | corrected member |
|---|---|---|---|---|---|---|
| internal/tg_bot/handlers/access_governance_bot/command_handler.go:63 | `len(message.NewChatMembers)` is read for every update, also when the update is a callback and `message` is nil | any callback update, e.g. a press of an `add_comment:<id>` button: the router panics, so no callback reaches a command | test for new chat members only on updates that carry a message | not executed | `CommandHandler.CallbackUpdatesPanic` (about `CommandHandler.RouteAsWritten`) | `CommandHandler.CallbacksReachCommands` (about `CommandHandler.Route`, used by `CommandHandler.Handle`) |
