/** `AddTeamForm`: a name and a description. A submit with a blank name does nothing; otherwise the
    two fields, untrimmed, go to `onAddTeam` and both are reset. */
module AddTeamForm {
  import opened Wrappers
  import opened Text

  /** What the form hands to `onAddTeam`. */
  datatype TeamDraft = TeamDraft(name: string, description: string)

  /** The `name` attribute of the input that fired `onChange`. */
  datatype InputName = NameInput | DescriptionInput

  /** `{ ...prev, [name]: value }`. */
  function Changed(d: TeamDraft, input: InputName, value: string): (r: TeamDraft)
    ensures input == NameInput ==> r.name == value && r.description == d.description
    ensures input == DescriptionInput ==> r.description == value && r.name == d.name
  {
    match input
    case NameInput => d.(name := value)
    case DescriptionInput => d.(description := value)
  }

  /** The submit decision: a draft whose name is blank is refused, anything else is sent exactly
      as typed; the form is empty after a send and untouched after a refusal. */
  function Submission(d: TeamDraft): (r: (Option<TeamDraft>, TeamDraft))
    ensures r.0.None? <==> IsBlank(d.name)
    ensures r.0.Some? ==> r.0.value == d && r.1 == TeamDraft("", "")
    ensures r.0.None? ==> r.1 == d
  {
    if Trim(d.name) == "" then (None, d) else (Some(d), TeamDraft("", ""))
  }

  /** Editing a field and then the other commute: each edit touches only its own field. */
  lemma ChangesCommute(d: TeamDraft, a: string, b: string)
    ensures Changed(Changed(d, NameInput, a), DescriptionInput, b)
         == Changed(Changed(d, DescriptionInput, b), NameInput, a)
  {
  }

  /** A name padded with spaces is sent with its padding; a name of spaces only is refused. */
  lemma PaddingIsKept(description: string)
    ensures Submission(TeamDraft(" Robotics ", description)).0 == Some(TeamDraft(" Robotics ", description))
    ensures Submission(TeamDraft("   ", description)).0 == None
  {
    assert !IsSpace(" Robotics "[1]);
    assert IsBlank("   ");
  }

  class Form {
    var formData: TeamDraft

    constructor ()
      ensures formData == TeamDraft("", "")
    {
      formData := TeamDraft("", "");
    }

    /** `handleChange`. */
    method HandleChange(input: InputName, value: string)
      modifies this
      ensures formData == Changed(old(formData), input, value)
    {
      formData := Changed(formData, input, value);
    }

    /** `handleSubmit`: returns what was passed to `onAddTeam`, if anything. */
    method HandleSubmit() returns (sent: Option<TeamDraft>)
      modifies this
      ensures (sent, formData) == Submission(old(formData))
    {
      if Trim(formData.name) == "" {
        sent := None;
        return;
      }
      sent := Some(formData);
      formData := TeamDraft("", "");
    }
  }
}
