/** The vote button shown beside each candidate of an active election
    (src/components/elections/VoteButton.tsx). */
module VoteButton {
  import opened Wrappers
  import opened Types

  datatype VoteButtonProps = VoteButtonProps(electionId: string, candidateId: string, hasVoted: bool)

  /** `Omit<Vote, 'id' | 'createdAt'>`: what a click hands to `castVote`. */
  datatype VoteInput = VoteInput(electionId: string, candidateId: string, voterId: string)

  /** What the button shows. */
  datatype ButtonView = ButtonView(disabled: bool, text: string)

  /** The button for a signed-in user (none without one); `pending` is
      whether the user's vote is still in flight. */
  function Render(props: VoteButtonProps, user: Option<User>, pending: bool): (view: Option<ButtonView>)
    ensures view.None? <==> user.None?
    ensures view.Some? ==> (view.value.disabled <==> props.hasVoted || pending)
    ensures view.Some? ==> (view.value.text == "Voted" <==> props.hasVoted)
    ensures view.Some? ==> (view.value.text == "Vote" <==> !props.hasVoted)
  {
    match user
    case None => None
    case Some(_) => Some(ButtonView(props.hasVoted || pending, if props.hasVoted then "Voted" else "Vote"))
  }

  /** A click: it issues a vote only on a rendered, enabled button, and the
      vote names the election, the candidate and the signed-in user. */
  function Click(props: VoteButtonProps, user: Option<User>, pending: bool): (issued: Option<VoteInput>)
    ensures issued.Some? <==> user.Some? && !props.hasVoted && !pending
    ensures issued.Some? ==> issued.value.electionId == props.electionId
    ensures issued.Some? ==> issued.value.candidateId == props.candidateId
    ensures issued.Some? ==> issued.value.voterId == user.value.id
  {
    match Render(props, user, pending)
    case None => None
    case Some(view) => if view.disabled then None else Some(VoteInput(props.electionId, props.candidateId, user.value.id))
  }
}
