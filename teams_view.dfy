/** `TeamsView`: the list of teams created in this session and whether the add-team form is open.
    Adding a team appends it with a fresh id and closes the form. */
module TeamsView {
  import opened Wrappers
  import AddTeamForm
  import opened Text

  datatype Team = Team(id: int, name: string, description: string)

  /** What the list area shows: the empty-state message, or one card per team in order. */
  datatype Listing = EmptyMessage | Cards(teams: seq<Team>)

  function ListingFor(teams: seq<Team>): (l: Listing)
    ensures l == EmptyMessage <==> |teams| == 0
    ensures l.Cards? ==> l.teams == teams
  {
    if |teams| == 0 then EmptyMessage else Cards(teams)
  }

  /** `{ ...team, id }`: the draft's name and description with the given id. */
  function NewTeam(draft: AddTeamForm.TeamDraft, id: int): (t: Team)
    ensures t.id == id && t.name == draft.name && t.description == draft.description
  {
    Team(id, draft.name, draft.description)
  }

  class Page {
    var teams: seq<Team>
    var showForm: bool

    /** The page starts with no team and the form closed. */
    constructor ()
      ensures teams == [] && !showForm
      ensures ListingFor(teams) == EmptyMessage
    {
      teams := [];
      showForm := false;
    }

    /** The "Add Team" button. */
    method OpenForm()
      modifies this`showForm
      ensures showForm
    {
      showForm := true;
    }

    /** The form's cancel button. */
    method CancelForm()
      modifies this`showForm
      ensures !showForm
    {
      showForm := false;
    }

    /** `handleAddTeam`, with `now` for `Date.now()`: one more team at the end, the earlier ones
        unchanged and in order, and the form closed. */
    method HandleAddTeam(draft: AddTeamForm.TeamDraft, now: int)
      modifies this
      ensures teams == old(teams) + [NewTeam(draft, now)]
      ensures !showForm
    {
      teams := teams + [NewTeam(draft, now)];
      showForm := false;
    }
  }

  /** A session on the page: open the form, type a name and a description, submit at time `now`.
      A blank name leaves the list empty and the form open with the text still in it; any other
      name adds exactly that team, closes the form and empties it. */
  method AddOneTeam(name: string, description: string, now: int)
    returns (listing: Listing, formOpen: bool, leftInForm: AddTeamForm.TeamDraft)
    ensures IsBlank(name) ==>
      listing == EmptyMessage && formOpen && leftInForm == AddTeamForm.TeamDraft(name, description)
    ensures !IsBlank(name) ==>
      listing == Cards([Team(now, name, description)]) && !formOpen && leftInForm == AddTeamForm.TeamDraft("", "")
  {
    var page := new Page();
    page.OpenForm();
    var form := new AddTeamForm.Form();
    form.HandleChange(AddTeamForm.NameInput, name);
    form.HandleChange(AddTeamForm.DescriptionInput, description);
    assert form.formData == AddTeamForm.TeamDraft(name, description);
    var sent := form.HandleSubmit();
    if sent.Some? {
      assert sent.value == AddTeamForm.TeamDraft(name, description);
      page.HandleAddTeam(sent.value, now);
    }
    listing := ListingFor(page.teams);
    formOpen := page.showForm;
    leftInForm := form.formData;
  }
}
