/** The candidate rows of the election page
    (src/components/elections/ElectionDetails.tsx): vote buttons appear only
    for an active election, and each button is passed a `hasVoted` flag that,
    as written, never finds the user's vote; the intended check is modelled
    beside it. */
module ElectionDetails {
  import opened Wrappers
  import opened Types
  import VoteButton

  /** Vote buttons are rendered exactly when the election is active. */
  function ShowsVoteButtons(status: Status): (shown: bool)
    ensures shown <==> status == Active
  {
    status == Active
  }

  /** An element of what `getUserVotes` returns: an object holding a
      candidate id. */
  datatype UserVote = UserVote(candidateId: string)

  /** The values an array search can meet: a string, or an object holding a
      candidate id. Two values of different kinds are never the same. */
  datatype JsValue = JsString(s: string) | JsVoteObject(candidateId: string)

  /** The page's check as written: `userVotes.includes(candidate.id)`
      searches a list of objects for a string. */
  function HasVotedAsWritten(userVotes: seq<UserVote>, candidateId: string): (found: bool)
    ensures !found
  {
    exists i :: 0 <= i < |userVotes| && JsVoteObject(userVotes[i].candidateId) == JsString(candidateId)
  }

  /** A user who voted for candidate "c1" still sees an enabled 'Vote'
      button for it. */
  lemma HasVotedAsWrittenMissesVote(user: User)
    ensures var votes := [UserVote("c1")];
      && votes[0].candidateId == "c1"
      && !HasVotedAsWritten(votes, "c1")
      && VoteButton.Render(VoteButton.VoteButtonProps("e1", "c1", HasVotedAsWritten(votes, "c1")), Some(user), false)
         == Some(VoteButton.ButtonView(false, "Vote"))
  {
  }

  /** The intended check: some recorded vote of the user is for this
      candidate. */
  function HasVoted(userVotes: seq<UserVote>, candidateId: string): (voted: bool)
    ensures voted <==> exists i :: 0 <= i < |userVotes| && userVotes[i].candidateId == candidateId
  {
    if userVotes == [] then false
    else userVotes[0].candidateId == candidateId || HasVoted(userVotes[1..], candidateId)
  }

  /** The vote button of one candidate row as the page renders it, with the
      check as written: never 'Voted', and disabled only while a vote is
      pending. */
  function CandidateVoteButtonAsWritten(status: Status, electionId: string, candidate: Candidate,
                                        userVotes: seq<UserVote>, user: Option<User>, pending: bool): (view: Option<VoteButton.ButtonView>)
    ensures view.Some? <==> status == Active && user.Some?
    ensures view.Some? ==> view.value.text == "Vote" && (view.value.disabled <==> pending)
  {
    if ShowsVoteButtons(status) then
      VoteButton.Render(VoteButton.VoteButtonProps(electionId, candidate.id, HasVotedAsWritten(userVotes, candidate.id)), user, pending)
    else None
  }

  /** The vote button of one candidate row with the corrected check. */
  function CandidateVoteButton(status: Status, electionId: string, candidate: Candidate,
                               userVotes: seq<UserVote>, user: Option<User>, pending: bool): (view: Option<VoteButton.ButtonView>)
    ensures view.Some? <==> status == Active && user.Some?
  {
    if ShowsVoteButtons(status) then
      VoteButton.Render(VoteButton.VoteButtonProps(electionId, candidate.id, HasVoted(userVotes, candidate.id)), user, pending)
    else None
  }

  /** With the intended check, a candidate the user voted for shows a
      disabled 'Voted' button in an active election, and one the user did
      not vote for shows 'Vote'. */
  lemma VotedCandidateShowsVoted(electionId: string, candidate: Candidate,
                                                      userVotes: seq<UserVote>, user: User, pending: bool)
    ensures var view := CandidateVoteButton(Active, electionId, candidate, userVotes, Some(user), pending);
      && view.Some?
      && ((exists i :: 0 <= i < |userVotes| && userVotes[i].candidateId == candidate.id) <==>
            view.value.text == "Voted")
      && ((exists i :: 0 <= i < |userVotes| && userVotes[i].candidateId == candidate.id) ==>
            view.value.disabled)
  {
  }
}
