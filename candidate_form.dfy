/** The candidate entry panel of the election wizard
    (src/components/elections/CandidateForm.tsx): the rules of its form, the
    open/closed flag and the remove control of each listed candidate. */
module CandidateForm {
  import opened Wrappers
  import opened Types

  /** What the panel's form submits. */
  datatype CandidateFormData = CandidateFormData(name: string, description: string, imageUrl: Option<string>)

  /** The fields a rule can fail on. */
  datatype CandidateField = NameField | DescriptionField | ImageUrlField

  /** The form's values before anything is typed, and after `reset()`. */
  const BlankForm := CandidateFormData("", "", None)

  predicate ValidName(name: string) {
    |name| >= 2
  }

  predicate ValidDescription(description: string) {
    |description| >= 10
  }

  /** An optional URL, or the empty string; `isUrl` stands for the URL rule
      of the validation library, which is not part of this model. */
  predicate ValidImageUrl(imageUrl: Option<string>, isUrl: string -> bool) {
    match imageUrl
    case None => true
    case Some(s) => isUrl(s) || s == ""
  }

  /** The fields whose rule the submitted data breaks (the keys of the
      form's error object); the form is accepted exactly when there are none. */
  function CandidateFormErrors(data: CandidateFormData, isUrl: string -> bool): (r: set<CandidateField>)
    ensures NameField in r <==> |data.name| < 2
    ensures DescriptionField in r <==> |data.description| < 10
    ensures ImageUrlField in r <==> data.imageUrl.Some? && data.imageUrl.value != "" && !isUrl(data.imageUrl.value)
  {
    (if ValidName(data.name) then {} else {NameField})
    + (if ValidDescription(data.description) then {} else {DescriptionField})
    + (if ValidImageUrl(data.imageUrl, isUrl) then {} else {ImageUrlField})
  }

  /** The candidate the wizard receives from the panel: the form data, with
      no platform. */
  function DraftOf(data: CandidateFormData): (d: CandidateDraft)
    ensures d.name == data.name && d.description == data.description && d.imageUrl == data.imageUrl
    ensures d.platform == None
  {
    CandidateDraft(data.name, data.description, None, data.imageUrl)
  }

  /** For each listed candidate, in display order, the index that its remove
      control passes to `onRemoveCandidate`. */
  function RemoveControls(candidates: seq<CandidateDraft>): (r: seq<int>)
    ensures |r| == |candidates|
    ensures forall row :: 0 <= row < |r| ==> r[row] == row
  {
    seq(|candidates|, row => row)
  }

  /** The panel's own state: whether the entry form is open, and the values
      typed into it. The form's fields, its Cancel and its submit button are
      only rendered while it is open, "+ Add Candidate" only while it is
      closed; each handler requires the state in which its control exists. */
  class CandidatePanel {
    var isAdding: bool
    var values: CandidateFormData

    constructor ()
      ensures !isAdding && values == BlankForm
    {
      isAdding := false;
      values := BlankForm;
    }

    /** Typing into the form's fields. */
    method Edit(newValues: CandidateFormData)
      requires isAdding
      modifies this
      ensures values == newValues && isAdding == old(isAdding)
    {
      values := newValues;
    }

    /** The "+ Add Candidate" button. */
    method Open()
      requires !isAdding
      modifies this
      ensures isAdding && values == old(values)
    {
      isAdding := true;
    }

    /** The Cancel button: closes the form and adds nothing. */
    method Cancel()
      requires isAdding
      modifies this
      ensures !isAdding && values == old(values)
    {
      isAdding := false;
    }

    /** Submitting the form. `added` lists the calls made to
        `onAddCandidate`: one call with the submitted values when they pass
        the rules, after which the form is cleared and closed; none
        otherwise, and then nothing changes. */
    method Submit(isUrl: string -> bool) returns (added: seq<CandidateFormData>)
      requires isAdding
      modifies this
      ensures CandidateFormErrors(old(values), isUrl) == {} ==>
                added == [old(values)] && !isAdding && values == BlankForm
      ensures CandidateFormErrors(old(values), isUrl) != {} ==>
                added == [] && isAdding == old(isAdding) && values == old(values)
    {
      if CandidateFormErrors(values, isUrl) == {} {
        added := [values];
        values := BlankForm;
        isAdding := false;
      } else {
        added := [];
      }
    }
  }
}
