# Student elections client: a Dafny model of its deterministic logic

This project models the client-side logic of a student-elections web client
(React front end, hosted database behind it). The rules the client enforces
itself are modelled and proved about:

- the **election wizard**. It is a two-step state machine: a candidates view
  where the candidate list is edited, then a details view where the election's
  title, description, dates and multiple-votes flag are entered. Submitting
  sends the election as a `draft`.
- the **candidate panel** inside the wizard. It has an open/closed flag, form
  rules for name, description and image URL, and one remove control per
  listed candidate.
- the **record mappings of the API layer**. These turn database rows into
  client objects and client objects into inserted rows.
- the **election list**. It has an active-only filter and a create link that
  only admins see.
- the **vote button**. This covers when it is shown, disabled and labelled,
  what vote it issues, and the rule that vote buttons appear only for an
  active election.
- the **onboarding stepper**. It is a counter over three steps.

The store's replies are parameters. Queries and inserts are not modelled: each
operation that consumes a reply takes it as an argument (`Fetch`). The current
instant `now` is a parameter too. Date strings are integer instants
(`Types.Instant`). A date text that does not denote a date is `None`, and it
never compares as later than `now`. The validation library's URL rule is the
function parameter `isUrl`.

`Wrappers` holds the `Option` and `Result` datatypes and corresponds to no
source file. `Types` gathers the record types of src/types/election.ts and
src/types/auth.ts. The other modules follow one source file each:
`CandidateForm`, `CreateElectionForm`, `ElectionsApi` (src/lib/api/elections.ts),
`ElectionList`, `VoteButton`, `ElectionDetails` and `Onboarding`. The wizard's state
(`CreateElectionForm.ElectionWizard`), the candidate panel
(`CandidateForm.CandidatePanel`) and the stepper (`Onboarding.Stepper`) are
classes, because the source updates that state in handlers. Everything else is
functions and lemmas.

Some rules one would expect of an elections system are not in the code, and
the model follows the code:

- An election whose end date is not after its start date is not rejected.
  The form's rules only compare each date with `now`
  (`EndBeforeStartIsAccepted`, `DateOrderIsNotChecked`).
- Creation is not atomic. `createElection` issues the election insert and
  then the candidate insert, and it does not undo the first when the second
  fails (`CreateElection`).
- On the client, status changes follow no lifecycle, nothing stops a second
  vote (the page's `hasVoted` is always false, so the button is enabled again
  once a vote stops pending), no voting window is checked and tallies are not
  zero-filled: neither the status update nor `castVote` checks anything.
  Whatever the database's own rules enforce is not part of this model.

## Model

| member | source | states |
|---|---|---|
| `CandidateForm.CandidateFormErrors` | src/components/elections/CandidateForm.tsx:8-12 | name fails iff shorter than 2; description fails iff shorter than 10; image URL fails iff present, non-empty and not a URL |
| `CandidateForm.RemoveControls` | src/components/elections/CandidateForm.tsx:37-45 | one remove control per listed candidate; the control of row i passes index i |
| `CandidateForm.DraftOf` | src/components/elections/CandidateForm.tsx:30 | the candidate handed to the wizard has the form's name, description and image URL, and no platform |
| `CandidateForm.CandidatePanel.constructor` | src/components/elections/CandidateForm.tsx:23 | the panel starts closed, with empty fields |
| `CandidateForm.CandidatePanel.Edit` | src/components/elections/CandidateForm.tsx:56-93 | typing replaces the field values and leaves the open flag alone |
| `CandidateForm.CandidatePanel.Open` | src/components/elections/CandidateForm.tsx:116 | "+ Add Candidate" opens the panel |
| `CandidateForm.CandidatePanel.Cancel` | src/components/elections/CandidateForm.tsx:98 | Cancel closes the panel and adds nothing |
| `CandidateForm.CandidatePanel.Submit` | src/components/elections/CandidateForm.tsx:29-33 | valid values: exactly one `onAddCandidate` call with them, then the fields are reset and the panel closed; invalid values: no call and no change |
| `ElectionsApi.MapCandidate` | src/lib/api/elections.ts:42-49 | a mapped candidate's platform is its description |
| `ElectionsApi.MapCandidates` | src/lib/api/elections.ts:42-49 | one candidate per row, in order; id, name, description, image URL and election id are copied, and platform is set to the description |
| `ElectionsApi.MapElection` | src/lib/api/elections.ts:36-50 | every modelled column of the row is kept; startDate, endDate, allowMultipleVotes and createdAt equal their snake-case columns; candidates are absent iff absent in the row, otherwise they are the row's candidates mapped one by one (`MapCandidates`) |
| `ElectionsApi.GetElection` | src/lib/api/elections.ts:14-51 | empty id: "Election ID is required"; store error: thrown; no row: null; otherwise the mapped row |
| `ElectionsApi.EmptyIdNeverLooksUp` | src/lib/api/elections.ts:15 | for an empty id the result fails and does not depend on the store |
| `ElectionsApi.ElectionInsertRow` | src/lib/api/elections.ts:69-76 | the election insert copies title, description, dates, the multiple-votes flag and status from the input |
| `ElectionsApi.ImageUrlColumn` | src/lib/api/elections.ts:90 | a missing or empty image URL becomes null; any other is copied |
| `ElectionsApi.CandidateInsertRows` | src/lib/api/elections.ts:86-93 | one insert row per candidate, in order, each with the new election's id, the candidate's name and description, and the image-URL column above |
| `ElectionsApi.CreateElection` | src/lib/api/elections.ts:53-102 | the election insert is always issued; the candidate insert is issued iff the store returned the new election, with that election's id; store errors and "No election data returned" are thrown; success returns the new election's row; a failing candidate insert leaves the election insert in place |
| `ElectionsApi.CreatedCandidatesReadBack` | src/lib/api/elections.ts:86-93 | candidates inserted for a new election and read back keep name, description and order, point at the election, carry the null-normalised image URL, and show their description as platform |
| `ElectionsApi.ScheduleOf` | src/lib/api/elections.ts:164-169 | one event per row, in order; id, title and description are copied, and date is the start date |
| `ElectionsApi.GetElectionSchedule` | src/lib/api/elections.ts:157-170 | a store error is thrown; otherwise the result is the rows turned into events one by one (`ScheduleOf`) |
| `ElectionsApi.ScheduleKeepsOrder` | src/lib/api/elections.ts:161-169 | rows ordered by start date give events ordered by date |
| `CreateElectionForm.ElectionFormErrors` | src/components/elections/CreateElectionForm.tsx:11-21 | title fails iff shorter than 3; description fails iff shorter than 10; each date fails iff it is not a date strictly after `now` |
| `CreateElectionForm.EndBeforeStartIsAccepted` | src/components/elections/CreateElectionForm.tsx:14-19 | a form whose end date precedes its start date passes the rules |
| `CreateElectionForm.DateOrderIsNotChecked` | src/components/elections/CreateElectionForm.tsx:11-21 | any form with a long-enough title and description and two dates after `now` passes the rules, whichever date comes first |
| `CreateElectionForm.Submission` | src/components/elections/CreateElectionForm.tsx:67-73 | the payload is the form's values plus the current candidate list plus status draft |
| `CreateElectionForm.WithoutIndex` | src/components/elections/CreateElectionForm.tsx:56 | filtering out an index removes one element if the index is in range and none otherwise |
| `CreateElectionForm.WithoutIndexDeletesOne` | src/components/elections/CreateElectionForm.tsx:55-57 | filtering out an index i in range deletes exactly element i and keeps the rest in order |
| `CreateElectionForm.WithoutIndexOutOfRange` | src/components/elections/CreateElectionForm.tsx:55-57 | filtering out an index out of range leaves the list unchanged |
| `CreateElectionForm.RemoveControlDeletesItsRow` | src/components/elections/CandidateForm.tsx:45 | the remove control of a row deletes exactly that row |
| `CreateElectionForm.SubmittedDraftIsStored` | src/components/elections/CreateElectionForm.tsx:67-73 | a submitted election is inserted with status draft and the form's title, with one candidate row per listed candidate, in order, pointing at the new election |
| `CreateElectionForm.ElectionWizard.constructor` | src/components/elections/CreateElectionForm.tsx:27-35 | the wizard starts in the candidates view with no candidates, an empty form whose multiple-votes flag is false, and a closed panel |
| `CreateElectionForm.ElectionWizard.AddCandidate` | src/components/elections/CreateElectionForm.tsx:51-53 | the candidate is appended at the end; nothing else changes |
| `CreateElectionForm.ElectionWizard.RemoveCandidate` | src/components/elections/CreateElectionForm.tsx:55-57 | an index in range deletes exactly that element, keeping order; any other index changes nothing |
| `CreateElectionForm.ElectionWizard.ContinueDisabled` | src/components/elections/CreateElectionForm.tsx:92 | Continue is disabled iff there are fewer than two candidates |
| `CreateElectionForm.ElectionWizard.Continue` | src/components/elections/CreateElectionForm.tsx:59-65 | with at least two candidates it moves to the details view; otherwise it alerts and changes nothing; the list is never changed; when the button is enabled, pressing it never alerts |
| `CreateElectionForm.ElectionWizard.Back` | src/components/elections/CreateElectionForm.tsx:176 | back to the candidates view, with the list and form unchanged and a freshly mounted closed panel |
| `CreateElectionForm.ElectionWizard.EditDetails` | src/components/elections/CreateElectionForm.tsx:112-171 | typing replaces the details form's values; view and list are unchanged |
| `CreateElectionForm.ElectionWizard.SubmitCandidate` | src/components/elections/CreateElectionForm.tsx:83-87 | a valid panel submit appends that candidate, with no platform, and closes the panel; an invalid one changes nothing |
| `CreateElectionForm.ElectionWizard.RemoveRow` | src/components/elections/CreateElectionForm.tsx:83-87 | the remove control of a listed row deletes exactly that row |
| `CreateElectionForm.ElectionWizard.Submit` | src/components/elections/CreateElectionForm.tsx:67-73 | the field errors are reported; a payload is produced iff there are none, and it is the form plus the list plus status draft, with at least two candidates |
| `ElectionList.ActiveOnlyProp` | src/components/elections/ElectionList.tsx:12 | the filter is on iff the prop is given as true; it defaults to false |
| `ElectionList.ActiveElections` | src/components/elections/ElectionList.tsx:20 | the result holds exactly the input's active elections and is no longer than the input |
| `ElectionList.ActiveElectionsIsSubsequence` | src/components/elections/ElectionList.tsx:20 | the active elections keep their input order |
| `ElectionList.ActiveElectionsKeepsCounts` | src/components/elections/ElectionList.tsx:20 | each active election appears as often as in the input; no other election appears |
| `ElectionList.FilteredElections` | src/components/elections/ElectionList.tsx:19-21 | nothing while loading; with the filter, exactly `ActiveElections` of the list: an order-preserving subsequence holding the active elections, each as often as in the input; without it, the input list |
| `ElectionList.ShowCreateLink` | src/components/elections/ElectionList.tsx:34 | the create link is shown iff the user is signed in as admin |
| `VoteButton.Render` | src/components/elections/VoteButton.tsx:12-42 | no user: nothing is rendered; disabled iff already voted or a vote is pending; label 'Voted' iff already voted, 'Vote' otherwise |
| `VoteButton.Click` | src/components/elections/VoteButton.tsx:16-33 | a vote is issued iff a user is signed in, has not voted and none is pending; it is exactly election id, candidate id and the user's id |
| `ElectionDetails.ShowsVoteButtons` | src/components/elections/ElectionDetails.tsx:82 | vote buttons are shown iff the election is active |
| `ElectionDetails.HasVotedAsWritten` | src/components/elections/ElectionDetails.tsx:86 | the page's `includes` check, comparing vote objects with a string, never finds a vote |
| `ElectionDetails.CandidateVoteButtonAsWritten` | src/components/elections/ElectionDetails.tsx:82-88 | the row's button as the page renders it: shown iff the election is active and a user is signed in; its label is always 'Vote' and it is disabled only while a vote is pending |
| `ElectionDetails.HasVotedAsWrittenMissesVote` | src/components/elections/ElectionDetails.tsx:86 | a user who voted for a candidate still sees an enabled 'Vote' button for it |
| `ElectionDetails.HasVoted` | src/components/elections/ElectionDetails.tsx:86 | true iff one of the user's recorded votes is for the candidate |
| `ElectionDetails.CandidateVoteButton` | src/components/elections/ElectionDetails.tsx:82-88 | the row's button with the corrected check (`HasVoted`): shown iff the election is active and a user is signed in |
| `ElectionDetails.VotedCandidateShowsVoted` | src/components/elections/ElectionDetails.tsx:82-88 | in an active election, with the intended check, the label is 'Voted' iff the user voted for that candidate, and then the button is disabled |
| `Onboarding.AfterPrevious` | src/components/onboarding/Onboarding.tsx:48-49 | Previous does nothing on the first step (it is disabled) and goes back one step elsewhere |
| `Onboarding.AfterNext` | src/components/onboarding/Onboarding.tsx:56 | Next completes on the last step and stays there; elsewhere it goes forward exactly one step |
| `Onboarding.Replay` | src/components/onboarding/Onboarding.tsx:48-56 | no presses leave the step alone and do not complete; completion only ever happens on the last step |
| `Onboarding.ReplayStaysInRange` | src/components/onboarding/Onboarding.tsx:48-56 | from any step, after any presses, the step is between 0 and 2 |
| `Onboarding.EnoughNextsComplete` | src/components/onboarding/Onboarding.tsx:56 | from step k, pressing Next 3 - k times completes the onboarding on the last step |
| `Onboarding.Stepper.constructor` | src/components/onboarding/Onboarding.tsx:23 | the stepper starts at step 0, not yet finished |
| `Onboarding.Stepper.Current` | src/components/onboarding/Onboarding.tsx:35-42 | the step shown is always one of the three steps |
| `Onboarding.Stepper.PreviousDisabled` | src/components/onboarding/Onboarding.tsx:49 | Previous is disabled iff on step 0, which is exactly when pressing it would not move |
| `Onboarding.Stepper.NextCaption` | src/components/onboarding/Onboarding.tsx:60 | the caption is 'Get Started' iff on the last step, and 'Next' otherwise |
| `Onboarding.Stepper.Previous` | src/components/onboarding/Onboarding.tsx:48-49 | only before completion; the step stays between 0 and 2; it goes back one step unless already at 0 |
| `Onboarding.Stepper.Next` | src/components/onboarding/Onboarding.tsx:26-56 | only before completion; the step stays between 0 and 2; on the last step it completes without moving and the page is left for the dashboard, elsewhere it goes forward one step |

## Findings

| source | as written | input that shows it | evidently intended | confidence | as-written member | corrected member |
|---|---|---|---|---|---|---|
| src/components/elections/ElectionDetails.tsx:86 | `userVotes.includes(candidate.id)` searches a list of `{candidateId}` objects (src/lib/api/elections.ts:142) for a string, so it is always false | a user whose votes list holds `{candidateId: "c1"}` viewing candidate "c1" of an active election still gets an enabled 'Vote' button | true iff some recorded vote of the user has that candidate id | high (by the comparison rules of arrays; not executed) | `ElectionDetails.HasVotedAsWrittenMissesVote` | `ElectionDetails.HasVoted`, used by `ElectionDetails.CandidateVoteButton` |

## Left out

- Every call to the hosted database: the queries and inserts in src/lib/api, authentication, and the vote-count procedure behind `getVoteCount`. Their replies enter the model as parameters.
- `getElections`, `createCandidate`, `getVoteCount`, `getUserVotes`, `updateElectionStatus` and `getCompletedElections` are only queries or inserts with nothing to map. `castVote` and `updateElectionStatus` check nothing on the client, so the model states no lifecycle rule and no vote uniqueness for them.
- Date parsing and ISO conversion (`new Date`, `toISOString`): instants are integers, and a text that is not a date is `None`. The `RangeError` that `toISOString` throws for an unparseable date in `createElection` is not modelled.
- The URL and e-mail rules of the validation library: the URL rule is the parameter `isUrl`.
- String length is counted in characters. The validation library counts UTF-16 code units, which differ for characters outside the Basic Multilingual Plane.
- `handleRemoveCandidate`'s index is a JavaScript number. The model takes an integer, so fractional or NaN indexes, which remove nothing, are not represented.
- The wizard's remove, add, continue, back and submit handlers require the view that renders their control (`requires step == ...`), and the candidate panel's handlers require the open or closed state that renders theirs (`Open` requires a closed panel; `Edit`, `Cancel`, `Submit` and the wizard's `SubmitCandidate` require an open one). In the source each control only exists in that view or state, so the model does not describe presses of controls that are not on screen.
- `castVote` also stamps the inserted vote with `createdAt`, the current time as an ISO string (src/lib/api/elections.ts:118). The clock and the insert are not modelled.
- ElectionsApi.MapElection: only the eight election columns of `Types.Election` are modelled. `...data` keeps whatever other columns the query returns (such as `position`, src/lib/api/elections.ts:178), and those are not represented.
- The error logging with `console.error` in `createElection` (src/lib/api/elections.ts:99) and in the form's submit handler (src/components/elections/CreateElectionForm.tsx:46): output only, with no effect on the state or the result.
- ElectionsApi.GetElection: getting the row for `id` is the store's job, so the model does not state that the returned election's id equals the requested one.
- The navigation after a created election, the alert text, the pending state of the create mutation and the query cache invalidation: routing and caching.
- Rendering, styling and routing (App, Navigation, StatusBadge, theme, build configuration) and the static pages (FAQ, help, guides, calendars, profile, notifications, support).
