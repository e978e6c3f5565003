/** `EventCreateModal`: the event form. The validator (with the start-before-end check done by
    string comparison of the slot values), the venue that is submitted, and the tag editor. */
module EventCreateModal {
  import opened Wrappers
  import opened Text
  import opened Lists
  import opened FormErrors
  import EventTimes

  // ----- the form -----

  /** The form data; `date` is the picked day, abstracted to a number. */
  datatype EventForm = EventForm(
    title: string, description: string, date: Option<int>, startTime: string, endTime: string,
    venue: string, customVenue: string, eventType: string, maxParticipants: string,
    registrationRequired: bool, tags: seq<string>, owner: string)

  function Blank(owner: string): EventForm {
    EventForm("", "", None, "", "", "", "", "", "", false, [], owner)
  }

  /** The fields of the form; errors are keyed by them. */
  datatype Field = Title | Description | Date | StartTime | EndTime | Venue | CustomVenue
                 | EventType | MaxParticipants | RegistrationRequired | Tags | Owner

  const TitleRequired: string := "Event title is required"
  const DateRequired: string := "Event date is required"
  const StartRequired: string := "Start time is required"
  const EndRequired: string := "End time is required"
  const EndNotAfterStart: string := "End time must be after start time"
  const VenueRequired: string := "Venue is required"
  const TypeRequired: string := "Event type is required"

  /** The end-time rule: required, and when both times are set (JavaScript `>=` on strings is
      "not below") after the start. */
  function EndTimeError(startTime: string, endTime: string): (e: Option<string>)
    ensures e.Some? <==> endTime == "" || (startTime != "" && !LexLess(startTime, endTime))
    ensures e == Some(EndRequired) <==> endTime == ""
  {
    if startTime != "" && endTime != "" && !LexLess(startTime, endTime) then Some(EndNotAfterStart)
    else if endTime == "" then Some(EndRequired)
    else None
  }

  /** The rule of each field: its message when it fails, nothing when it holds. */
  function Rule(f: EventForm, k: Field): Option<string> {
    match k
    case Title => RequiredError(IsBlank(f.title), TitleRequired)
    case Date => RequiredError(f.date.None?, DateRequired)
    case StartTime => RequiredError(f.startTime == "", StartRequired)
    case EndTime => EndTimeError(f.startTime, f.endTime)
    case Venue => RequiredError(f.venue == "" && f.customVenue == "", VenueRequired)
    case EventType => RequiredError(f.eventType == "", TypeRequired)
    case _ => None
  }

  /** `!s.trim()`: the trimmed text is empty exactly when `s` is blank. */
  method TrimsToEmpty(s: string) returns (empty: bool)
    ensures empty <==> IsBlank(s)
  {
    empty := Trim(s) == "";
  }

  /** `validateForm`: the dictionary holds exactly the failed rules with their messages, and the
      form is valid when it stayed empty. */
  method ValidateForm(f: EventForm) returns (errors: Errors<Field>, valid: bool)
    ensures forall k :: k in errors <==> Rule(f, k).Some?
    ensures forall k :: k in errors ==> errors[k] == Rule(f, k).value
    ensures valid <==> errors == map[]
  {
    var newErrors: Errors<Field> := map[];
    var titleMissing := TrimsToEmpty(f.title);
    if titleMissing {
      newErrors := newErrors[Title := TitleRequired];
    }
    if f.date.None? {
      newErrors := newErrors[Date := DateRequired];
    }
    if f.startTime == "" {
      newErrors := newErrors[StartTime := StartRequired];
    }
    if f.endTime == "" {
      newErrors := newErrors[EndTime := EndRequired];
    }
    if f.startTime != "" && f.endTime != "" && !LexLess(f.startTime, f.endTime) {
      newErrors := newErrors[EndTime := EndNotAfterStart];
    }
    if f.venue == "" && f.customVenue == "" {
      newErrors := newErrors[Venue := VenueRequired];
    }
    if f.eventType == "" {
      newErrors := newErrors[EventType := TypeRequired];
    }
    // One field at a time, the dictionary agrees with that field's rule.
    forall k
      ensures k in newErrors <==> Rule(f, k).Some?
      ensures k in newErrors ==> newErrors[k] == Rule(f, k).value
    {
      match k
      case Title =>
      case Date =>
      case StartTime =>
      case EndTime =>
      case Venue =>
      case EventType =>
      case _ =>
    }
    errors := newErrors;
    valid := newErrors == map[];
  }

  /** A form passes exactly when the title is not blank, date and both times are set, the end is
      after the start, some venue is given and the type is chosen. */
  predicate Acceptable(f: EventForm) {
    !IsBlank(f.title) && f.date.Some? && f.startTime != "" && f.endTime != ""
    && LexLess(f.startTime, f.endTime) && (f.venue != "" || f.customVenue != "") && f.eventType != ""
  }

  /** The validator as a decision: it accepts exactly the acceptable forms. */
  method ValidIffAcceptable(f: EventForm) returns (valid: bool)
    ensures valid <==> Acceptable(f)
  {
    var errors;
    errors, valid := ValidateForm(f);
    if !valid {
      var k: Field :| k in errors;
      assert Rule(f, k).Some?;
    } else {
      assert Rule(f, Title).None? && Rule(f, Date).None? && Rule(f, StartTime).None?;
      assert Rule(f, EndTime).None? && Rule(f, Venue).None? && Rule(f, EventType).None?;
    }
  }

  /** With times taken from the table, the end-time rule fails exactly when the end slot is not
      later than the start slot. */
  lemma EndRuleOnSlots(f: EventForm, i: nat, j: nat)
    requires i < 48 && j < 48
    requires f.startTime == EventTimes.TimeOptions[i].value && f.endTime == EventTimes.TimeOptions[j].value
    ensures Rule(f, EndTime) == if i >= j then Some(EndNotAfterStart) else None
  {
    var vi, vj := EventTimes.ValueOf(i), EventTimes.ValueOf(j);
    assert f.startTime == vi && f.endTime == vj;
    assert |vi| > 0 && |vj| > 0;
    EventTimes.ValueOrderIsSlotOrder(i, j);
    assert Rule(f, EndTime) == EndTimeError(vi, vj);
  }

  /** The venue sent with the event: the custom venue when "Other" is chosen. */
  function SubmittedVenue(f: EventForm): (v: string)
    ensures f.venue == "Other" ==> v == f.customVenue
    ensures f.venue != "Other" ==> v == f.venue
  {
    if f.venue == "Other" then f.customVenue else f.venue
  }

  /** "Other" with an empty custom venue passes the venue rule, and the event is then sent with an
      empty venue. */
  lemma OtherWithoutCustomVenuePasses(f: EventForm)
    requires f.venue == "Other" && f.customVenue == ""
    ensures Rule(f, Venue).None? && SubmittedVenue(f) == ""
  {
  }

  /** The event handed to `onEventCreated`: the form with the venue resolved, the creation time
      and the id. */
  datatype EventData = EventData(details: EventForm, createdAt: int, id: string)

  /** Neither empty nor starting or ending with whitespace: what `trim` returns for a string
      that is not blank. */
  predicate TrimmedWord(t: string) {
    t != "" && !IsSpace(t[0]) && !IsSpace(t[|t| - 1])
  }

  /** Tags are trimmed, non-empty and distinct. */
  predicate TagsWellFormed(tags: seq<string>) {
    NoDuplicates(tags) && forall t :: t in tags ==> TrimmedWord(t)
  }

  /** `addTag` on the list: the trimmed input is taken when it is non-empty and new. */
  function WithTag(tags: seq<string>, input: string): (r: seq<string>)
    ensures Trim(input) != "" && Trim(input) !in tags ==> r == tags + [Trim(input)]
    ensures Trim(input) == "" || Trim(input) in tags ==> r == tags
  {
    if Trim(input) != "" && Trim(input) !in tags then tags + [Trim(input)] else tags
  }

  /** Adding and removing tags keeps the list well formed. */
  lemma TagEditsKeepWellFormed(tags: seq<string>, input: string, t: string)
    requires TagsWellFormed(tags)
    ensures TagsWellFormed(WithTag(tags, input))
    ensures TagsWellFormed(RemoveAll(tags, t))
  {
    AddTagKeepsWellFormed(tags, input);
    RemoveTagKeepsWellFormed(tags, t);
  }

  /** What `trim` returns for a string that is not blank is a trimmed word. */
  lemma TrimGivesWord(input: string)
    requires Trim(input) != ""
    ensures TrimmedWord(Trim(input))
  {
  }

  lemma AddTagKeepsWellFormed(tags: seq<string>, input: string)
    requires TagsWellFormed(tags)
    ensures TagsWellFormed(WithTag(tags, input))
  {
    var x := Trim(input);
    if x != "" && x !in tags {
      TrimGivesWord(input);
      AppendNewKeepsNoDuplicates(tags, x);
      var r := tags + [x];
      assert forall y :: y in r ==> y in tags || y == x;
    }
  }

  lemma RemoveTagKeepsWellFormed(tags: seq<string>, t: string)
    requires TagsWellFormed(tags)
    ensures TagsWellFormed(RemoveAll(tags, t))
  {
    RemoveAllKeepsNoDuplicates(tags, t);
  }

  /** A tag added from padded input is found again by its trimmed text, and removing it gives the
      list back. */
  lemma AddThenRemoveTag(tags: seq<string>, input: string)
    requires Trim(input) != "" && Trim(input) !in tags
    ensures RemoveAll(WithTag(tags, input), Trim(input)) == tags
  {
    var x := Trim(input);
    RemoveAllDistributes(tags, [x], x);
    RemoveAllAbsent(tags, x);
    RemoveAllSingleton(x, x);
    assert tags + [] == tags;
  }

  /** The text fields of the form, set through `updateField` by an input or a select. */
  datatype TextField = TitleText | DescriptionText | StartTimeText | EndTimeText | VenueText
                     | CustomVenueText | EventTypeText | MaxParticipantsText

  function KeyOf(t: TextField): Field {
    match t
    case TitleText => Title
    case DescriptionText => Description
    case StartTimeText => StartTime
    case EndTimeText => EndTime
    case VenueText => Venue
    case CustomVenueText => CustomVenue
    case EventTypeText => EventType
    case MaxParticipantsText => MaxParticipants
  }

  /** The value a text field holds. */
  function TextOf(f: EventForm, t: TextField): string {
    match t
    case TitleText => f.title
    case DescriptionText => f.description
    case StartTimeText => f.startTime
    case EndTimeText => f.endTime
    case VenueText => f.venue
    case CustomVenueText => f.customVenue
    case EventTypeText => f.eventType
    case MaxParticipantsText => f.maxParticipants
  }

  /** `{ ...prev, [field]: value }` on a text field: that field now holds `value`; every other
      text field, the tags, the date, the owner and the flag keep theirs. */
  function WithText(f: EventForm, t: TextField, value: string): (r: EventForm)
    ensures TextOf(r, t) == value
    ensures forall u :: u != t ==> TextOf(r, u) == TextOf(f, u)
    ensures r.tags == f.tags && r.date == f.date && r.owner == f.owner
    ensures r.registrationRequired == f.registrationRequired
  {
    match t
    case TitleText => f.(title := value)
    case DescriptionText => f.(description := value)
    case StartTimeText => f.(startTime := value)
    case EndTimeText => f.(endTime := value)
    case VenueText => f.(venue := value)
    case CustomVenueText => f.(customVenue := value)
    case EventTypeText => f.(eventType := value)
    case MaxParticipantsText => f.(maxParticipants := value)
  }

  /** Editing one text field leaves the rules of the fields it does not feed as they were (the
      end-time rule reads both times and the venue rule both venues). */
  lemma EditKeepsOtherRules(f: EventForm, t: TextField, value: string, k: Field)
    requires k != KeyOf(t)
    requires t == StartTimeText ==> k != EndTime
    requires t == CustomVenueText ==> k != Venue
    ensures Rule(WithText(f, t, value), k) == Rule(f, k)
  {
  }

  /** The modal's state. */
  class Modal {
    var formData: EventForm
    var errors: Errors<Field>
    var newTag: string
    var isLoading: bool
    /** `user?.id || ''` when the modal was mounted. */
    const initialOwner: string

    /** The tags are trimmed and distinct; no control sets the registration flag, so it stays
        as the blank form has it; and the owner stays the one the modal was mounted with. */
    predicate Valid()
      reads this
    {
      TagsWellFormed(formData.tags) && !formData.registrationRequired && formData.owner == initialOwner
    }

    constructor (owner: string)
      ensures formData == Blank(owner) && errors == map[] && newTag == "" && !isLoading
      ensures initialOwner == owner && Valid()
    {
      formData := Blank(owner);
      errors := map[];
      newTag := "";
      isLoading := false;
      initialOwner := owner;
    }

    /** `updateField` on a text field. */
    method UpdateText(t: TextField, value: string)
      modifies this`formData, this`errors
      ensures formData == WithText(old(formData), t, value)
      ensures TextOf(formData, t) == value
      ensures errors == ClearShownError(old(errors), KeyOf(t))
      ensures old(Valid()) ==> Valid()
    {
      formData := WithText(formData, t, value);
      errors := ClearShownError(errors, KeyOf(t));
    }

    /** `updateField('date', date)` from the calendar. */
    method UpdateDate(date: Option<int>)
      modifies this`formData, this`errors
      ensures formData == old(formData).(date := date)
      ensures errors == ClearShownError(old(errors), Date)
      ensures old(Valid()) ==> Valid()
    {
      formData := formData.(date := date);
      errors := ClearShownError(errors, Date);
    }

    /** Typing in the tag input. */
    method SetNewTag(s: string)
      modifies this`newTag
      ensures newTag == s
    {
      newTag := s;
    }

    /** `addTag`: a trimmed, non-empty, new tag is appended through `updateField` and the input is
        cleared; a refused tag changes nothing, so the input keeps its text. */
    method AddTag()
      requires Valid()
      modifies this`formData, this`errors, this`newTag
      ensures formData == old(formData).(tags := WithTag(old(formData.tags), old(newTag)))
      ensures WithTag(old(formData.tags), old(newTag)) != old(formData.tags) ==>
        newTag == "" && errors == ClearShownError(old(errors), Tags)
      ensures WithTag(old(formData.tags), old(newTag)) == old(formData.tags) ==>
        newTag == old(newTag) && errors == old(errors)
      ensures Valid()
    {
      AddTagKeepsWellFormed(formData.tags, newTag);
      ghost var taken := WithTag(formData.tags, newTag);
      var tag := Trim(newTag);
      if tag != "" && tag !in formData.tags {
        assert taken == formData.tags + [tag];
        formData := formData.(tags := formData.tags + [tag]);
        errors := ClearShownError(errors, Tags);
        newTag := "";
      }
    }

    /** `removeTag`: every equal tag goes through `updateField`. */
    method RemoveTag(t: string)
      requires Valid()
      modifies this`formData, this`errors
      ensures formData == old(formData).(tags := RemoveAll(old(formData.tags), t))
      ensures errors == ClearShownError(old(errors), Tags)
      ensures Valid()
    {
      RemoveTagKeepsWellFormed(formData.tags, t);
      formData := formData.(tags := RemoveAll(formData.tags, t));
      errors := ClearShownError(errors, Tags);
    }

    /** `handleSubmit`: an invalid form only records its errors; a valid one is sent with the
        venue resolved (the simulated request always succeeds), then the form and its errors are
        reset and loading is off. `now` is the clock reading that stamps the event and, written
        out in decimal, gives its id (`Date.now().toString()`). */
    method Submit(now: int) returns (sent: Option<EventData>)
      requires Valid()
      modifies this`formData, this`errors, this`isLoading
      ensures sent.Some? <==> Acceptable(old(formData))
      ensures sent.None? ==> formData == old(formData) && errors != map[] && isLoading == old(isLoading)
      ensures sent.None? ==> forall k :: k in errors <==> Rule(formData, k).Some?
      ensures sent.Some? ==> sent.value == EventData(old(formData).(venue := SubmittedVenue(old(formData))), now, IntToString(now))
      ensures sent.Some? ==> formData == Blank(initialOwner) && errors == map[] && !isLoading
      ensures sent.Some? ==> !sent.value.details.registrationRequired && sent.value.details.owner == initialOwner
      ensures Valid()
    {
      var newErrors, valid := ValidateForm(formData);
      errors := newErrors;
      if !valid {
        // Some rule failed: that field is in the dictionary.
        var k: Field :| k in newErrors;
        assert Rule(formData, k).Some?;
        sent := None;
        return;
      }
      // No rule failed, field by field.
      assert Rule(formData, Title).None? && Rule(formData, Date).None? && Rule(formData, StartTime).None?;
      assert Rule(formData, EndTime).None? && Rule(formData, Venue).None? && Rule(formData, EventType).None?;
      isLoading := true;
      var id := IntToString(now);
      sent := Some(EventData(formData.(venue := SubmittedVenue(formData)), now, id));
      formData := Blank(initialOwner);
      errors := map[];
      isLoading := false;
    }
  }
}
