/**
 * The vote service: an HTTP API that opens polls and reports their votes.
 * Only its answers matter here, so it is a value that says what each call
 * would answer; `None` stands for a failed request.
 */
module VoteServices {
  import opened Wrappers
  import opened Models

  /** What `CreatePoll` sends: a title, a description and the due date. */
  datatype PollRequest = PollRequest(title: string, description: Text, dueDate: Time)

  datatype VoteService = VoteService(votes: map<int, seq<Vote>>, polls: map<PollRequest, Poll>) {

    /** `GetVotes(pollID)`: the votes of a poll the service knows, an error otherwise. */
    function GetVotes(pollId: int): Option<seq<Vote>> {
      if pollId in votes then Some(votes[pollId]) else None
    }

    /** `CreatePoll(title, description, dueDate)`: the poll it opens, or an error. */
    function CreatePoll(request: PollRequest): Option<Poll> {
      if request in polls then Some(polls[request]) else None
    }
  }
}
