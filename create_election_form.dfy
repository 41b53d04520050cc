/** The two-step election wizard (src/components/elections/CreateElectionForm.tsx):
    first the candidate list is edited, then the election's details are
    entered and the election is submitted as a draft. */
module CreateElectionForm {
  import opened Wrappers
  import opened Types
  import CandidateForm
  import ElectionsApi

  /** The wizard's two views. */
  datatype Step = CandidatesStep | DetailsStep

  /** The values of the details form. A date field holds the instant its text
      denotes, or None when the text is not a date (empty, say). */
  datatype ElectionFormData = ElectionFormData(
    title: string,
    description: string,
    startDate: Option<Instant>,
    endDate: Option<Instant>,
    allowMultipleVotes: bool)

  /** The fields a rule can fail on. */
  datatype ElectionField = TitleField | DescriptionField | StartDateField | EndDateField

  /** The details form before anything is entered: only the checkbox has a
      default, and it is unchecked. */
  const DefaultForm := ElectionFormData("", "", None, None, false)

  predicate ValidTitle(title: string) {
    |title| >= 3
  }

  predicate ValidDescription(description: string) {
    |description| >= 10
  }

  /** A date compared with the current instant; a text that is not a date
      never compares greater. */
  predicate InFuture(date: Option<Instant>, now: Instant) {
    match date
    case None => false
    case Some(d) => d > now
  }

  /** The fields whose rule the form breaks at instant `now` (the keys of
      the form's error object); the form is accepted exactly when there are
      none. No rule relates the two dates. */
  function ElectionFormErrors(form: ElectionFormData, now: Instant): (r: set<ElectionField>)
    ensures TitleField in r <==> |form.title| < 3
    ensures DescriptionField in r <==> |form.description| < 10
    ensures StartDateField in r <==> !(form.startDate.Some? && form.startDate.value > now)
    ensures EndDateField in r <==> !(form.endDate.Some? && form.endDate.value > now)
  {
    (if ValidTitle(form.title) then {} else {TitleField})
    + (if ValidDescription(form.description) then {} else {DescriptionField})
    + (if InFuture(form.startDate, now) then {} else {StartDateField})
    + (if InFuture(form.endDate, now) then {} else {EndDateField})
  }

  /** Whichever date comes first, a form whose texts are long enough and
      whose two dates both lie after `now` passes the rules. */
  lemma DateOrderIsNotChecked(form: ElectionFormData, now: Instant)
    requires |form.title| >= 3 && |form.description| >= 10
    requires form.startDate.Some? && form.startDate.value > now
    requires form.endDate.Some? && form.endDate.value > now
    ensures ElectionFormErrors(form, now) == {}
  {
  }

  /** An end date before the start date passes the rules. */
  lemma EndBeforeStartIsAccepted(now: Instant)
    ensures var form := ElectionFormData("Council", "Spring council vote", Some(now + 2), Some(now + 1), false);
      form.endDate.value < form.startDate.value && ElectionFormErrors(form, now) == {}
  {
  }

  /** The payload `onSubmit` hands to `createElection`: the form's values,
      the current candidate list, and the draft status. */
  function Submission(form: ElectionFormData, candidates: seq<CandidateDraft>): (data: ElectionsApi.NewElection)
    requires form.startDate.Some? && form.endDate.Some?
    ensures data.status == Draft
    ensures data.candidates == candidates
    ensures data.title == form.title && data.description == form.description
    ensures data.startDate == form.startDate.value && data.endDate == form.endDate.value
    ensures data.allowMultipleVotes == form.allowMultipleVotes
  {
    ElectionsApi.NewElection(form.title, form.description, form.startDate.value, form.endDate.value,
                             form.allowMultipleVotes, candidates, Draft)
  }

  /** `prev.filter((_, i) => i !== index)`: the elements whose position is
      not `index`. */
  function WithoutIndex<T>(s: seq<T>, index: int): (r: seq<T>)
    ensures |r| == if 0 <= index < |s| then |s| - 1 else |s|
    decreases |s|
  {
    if s == [] then []
    else (if index == 0 then [] else [s[0]]) + WithoutIndex(s[1..], index - 1)
  }

  /** Removing an index in range deletes exactly that element and keeps the
      others in order. */
  lemma {:induction false} WithoutIndexDeletesOne<T>(s: seq<T>, index: int)
    requires 0 <= index < |s|
    ensures WithoutIndex(s, index) == s[..index] + s[index + 1..]
    decreases |s|
  {
    if index == 0 {
      WithoutIndexOutOfRange(s[1..], -1);
    } else {
      var tail := s[1..];
      WithoutIndexDeletesOne(tail, index - 1);
      assert WithoutIndex(s, index) == [s[0]] + (tail[..index - 1] + tail[index..]);
      assert [s[0]] + tail[..index - 1] == s[..index];
      assert tail[index..] == s[index + 1..];
    }
  }

  /** Removing an index out of range changes nothing. */
  lemma {:induction false} WithoutIndexOutOfRange<T>(s: seq<T>, index: int)
    requires !(0 <= index < |s|)
    ensures WithoutIndex(s, index) == s
    decreases |s|
  {
    if s != [] {
      WithoutIndexOutOfRange(s[1..], index - 1);
      assert [s[0]] + s[1..] == s;
    }
  }

  /** The remove control of row `row` deletes exactly that row. */
  lemma RemoveControlDeletesItsRow(candidates: seq<CandidateDraft>, row: nat)
    requires row < |candidates|
    ensures WithoutIndex(candidates, CandidateForm.RemoveControls(candidates)[row])
            == candidates[..row] + candidates[row + 1..]
  {
    WithoutIndexDeletesOne(candidates, row);
  }

  /** A submitted draft reaches the store as a draft election with one
      candidate row per listed candidate, in order. */
  lemma SubmittedDraftIsStored(
    form: ElectionFormData, candidates: seq<CandidateDraft>,
    inserted: ElectionsApi.ElectionRow, candidateError: Option<string>)
    requires form.startDate.Some? && form.endDate.Some?
    ensures var run := ElectionsApi.CreateElection(Submission(form, candidates), ElectionsApi.Fetched(Some(inserted)), candidateError);
      && run.electionInsert.status == Draft
      && run.electionInsert.title == form.title
      && run.candidateInsert.Some?
      && |run.candidateInsert.value| == |candidates|
      && forall i :: 0 <= i < |candidates| ==>
           run.candidateInsert.value[i].name == candidates[i].name
           && run.candidateInsert.value[i].election_id == inserted.id
  {
  }

  /** The wizard's state: the current view, the candidate list, the details
      form and the candidate panel that the candidates view shows. */
  class ElectionWizard {
    var step: Step
    var candidates: seq<CandidateDraft>
    var form: ElectionFormData
    var panel: CandidateForm.CandidatePanel

    /** The details view is only reached through Continue and the list is
        only edited in the candidates view, so the details view always has
        at least two candidates. */
    ghost predicate Valid()
      reads this
    {
      step == DetailsStep ==> |candidates| >= 2
    }

    constructor ()
      ensures Valid()
      ensures step == CandidatesStep && candidates == [] && form == DefaultForm
      ensures fresh(panel) && !panel.isAdding && panel.values == CandidateForm.BlankForm
    {
      step := CandidatesStep;
      candidates := [];
      form := DefaultForm;
      panel := new CandidateForm.CandidatePanel();
    }

    /** `handleAddCandidate`, reachable from the candidates view: appends
        at the end. */
    method AddCandidate(c: CandidateDraft)
      requires Valid() && step == CandidatesStep
      modifies this
      ensures Valid()
      ensures candidates == old(candidates) + [c]
      ensures step == old(step) && form == old(form) && panel == old(panel)
    {
      candidates := candidates + [c];
    }

    /** `handleRemoveCandidate`, reachable from the candidates view. */
    method RemoveCandidate(index: int)
      requires Valid() && step == CandidatesStep
      modifies this
      ensures Valid()
      ensures 0 <= index < |old(candidates)| ==> candidates == old(candidates)[..index] + old(candidates)[index + 1..]
      ensures !(0 <= index < |old(candidates)|) ==> candidates == old(candidates)
      ensures step == old(step) && form == old(form) && panel == old(panel)
    {
      if 0 <= index < |candidates| {
        WithoutIndexDeletesOne(candidates, index);
      } else {
        WithoutIndexOutOfRange(candidates, index);
      }
      candidates := WithoutIndex(candidates, index);
    }

    /** Whether the Continue button is disabled. */
    function ContinueDisabled(): (disabled: bool)
      reads this
      ensures disabled <==> |candidates| < 2
    {
      |candidates| < 2
    }

    /** `handleContinue`: to the details view with two candidates or more;
        otherwise an alert and nothing changes. */
    method Continue() returns (alerted: bool)
      requires Valid() && step == CandidatesStep
      modifies this
      ensures Valid()
      ensures alerted <==> |candidates| < 2
      ensures !old(ContinueDisabled()) ==> step == DetailsStep && !alerted
      ensures step == (if alerted then CandidatesStep else DetailsStep)
      ensures candidates == old(candidates) && form == old(form) && panel == old(panel)
    {
      if |candidates| >= 2 {
        step := DetailsStep;
        alerted := false;
      } else {
        alerted := true;
      }
    }

    /** The "Back to Candidates" button. The candidates view mounts a new
        candidate panel, which starts closed and empty. */
    method Back()
      requires Valid() && step == DetailsStep
      modifies this
      ensures Valid()
      ensures step == CandidatesStep && candidates == old(candidates) && form == old(form)
      ensures fresh(panel) && !panel.isAdding && panel.values == CandidateForm.BlankForm
    {
      step := CandidatesStep;
      panel := new CandidateForm.CandidatePanel();
    }

    /** Typing into the details form. */
    method EditDetails(values: ElectionFormData)
      requires Valid() && step == DetailsStep
      modifies this
      ensures Valid()
      ensures form == values
      ensures step == old(step) && candidates == old(candidates) && panel == old(panel)
    {
      form := values;
    }

    /** Submitting the candidate panel: the candidate it hands over, if its
        rules pass, is appended to the list. */
    method SubmitCandidate(isUrl: string -> bool)
      requires Valid() && step == CandidatesStep
      requires panel.isAdding
      modifies this, panel
      ensures Valid()
      ensures panel == old(panel)
      ensures CandidateForm.CandidateFormErrors(old(panel.values), isUrl) == {} ==>
                candidates == old(candidates) + [CandidateForm.DraftOf(old(panel.values))]
                && !panel.isAdding && panel.values == CandidateForm.BlankForm
      ensures CandidateForm.CandidateFormErrors(old(panel.values), isUrl) != {} ==>
                candidates == old(candidates)
                && panel.isAdding == old(panel.isAdding) && panel.values == old(panel.values)
      ensures step == old(step) && form == old(form)
    {
      var added := panel.Submit(isUrl);
      if added != [] {
        AddCandidate(CandidateForm.DraftOf(added[0]));
      }
    }

    /** The remove control of row `row` of the listed candidates. */
    method RemoveRow(row: nat)
      requires Valid() && step == CandidatesStep
      requires row < |candidates|
      modifies this
      ensures Valid()
      ensures candidates == old(candidates)[..row] + old(candidates)[row + 1..]
      ensures step == old(step) && form == old(form) && panel == old(panel)
    {
      var index := CandidateForm.RemoveControls(candidates)[row];
      RemoveCandidate(index);
    }

    /** `handleSubmit(onSubmit)` on the details form at instant `now`: the
        field errors, and the payload when there are none. */
    method Submit(now: Instant) returns (errors: set<ElectionField>, payload: Option<ElectionsApi.NewElection>)
      requires Valid() && step == DetailsStep
      ensures errors == ElectionFormErrors(form, now)
      ensures payload.Some? <==> errors == {}
      ensures payload.Some? ==>
                && form.startDate.Some? && form.endDate.Some?
                && payload.value == Submission(form, candidates)
                && |payload.value.candidates| >= 2
    {
      errors := ElectionFormErrors(form, now);
      if errors == {} {
        payload := Some(Submission(form, candidates));
      } else {
        payload := None;
      }
    }
  }
}
